/**
 What each reconciler does when nobody else writes its kinds.

 Every lemma covers two worlds at once.  When calls may come back
 cancelled, as after the first error of a sibling, they say what a run can at
 worst leave behind.  When the server answers truthfully, they say exactly when
 the reconciler fails and what it has then achieved.
 */
module SoloRuns {
  import opened Options
  import opened KeyOrder
  import opened Bundle
  import opened DeepDerivative
  import opened DeploymentCompiler
  import opened DeploymentEncoding
  import opened ConfigMapCompiler
  import opened ExternalSecretCompiler
  import opened ServiceCompiler
  import opened Api
  import opened Programs

  predicate SameExcept(a: Cluster, b: Cluster, keys: set<Key>) {
    a - keys == b - keys
  }

  lemma Untouched(a: Cluster, b: Cluster, keys: set<Key>, k: Key)
    requires SameExcept(a, b, keys) && k !in keys
    ensures (k in a <==> k in b) && (k in a ==> a[k] == b[k])
  {
    assert k in a <==> k in a - keys;
    assert k in b <==> k in b - keys;
    assert k in a ==> (a - keys)[k] == a[k];
    assert k in b ==> (b - keys)[k] == b[k];
  }

  /** At worst a written object is gone, untouched, or what the server made of what was sent. */
  predicate LeftAs(c: Cluster, after: Cluster, key: Key, sent: Obj) {
    && SameExcept(c, after, {key})
    && (key in after ==> (key in c && after[key] == c[key]) || Admits(sent, after[key]))
  }

  // ----- UpsertResource -----

  /** Exactly when a truthful server makes an upsert fail, and how. */
  predicate UpsertOutcome(
    c: Cluster, key: Key, obj: Obj, er: Option<ApiError>, neverDelete: bool, mid: Cluster, e: Option<ApiError>)
  {
    if er.Some? && er.value != NotFound then e == er && mid == c
    else if er.Some? then e == if key in c then Some(Failed) else None
    else if key !in c then e == Some(NotFound) && mid == c
    else if Rejects(key.kind, c[key], obj) then
      e == Some(SelectorImmutable) && (neverDelete ==> mid == c)
      && (!neverDelete ==> key in mid && Admits(obj, mid[key]))
    else e == None
  }

  lemma UpsertRun(
    key: Key, obj: Obj, er: Option<ApiError>, neverDelete: bool, k: Option<ApiError> -> Prog,
    c: Cluster, mode: Mode, trace: seq<Event>, after: Cluster, err: Option<ApiError>)
    returns (e: Option<ApiError>, mid: Cluster, rest: seq<Event>)
    requires Runs(Upsert(key, obj, er, neverDelete, k), c, mode, trace, after, err)
    ensures Runs(k(e), mid, mode, rest, after, err)
    ensures LeftAs(c, mid, key, obj)
    ensures e == None ==> key in mid && Admits(obj, mid[key])
    ensures neverDelete && key in c ==> key in mid
    ensures er.Some? && er.value != NotFound ==> e == er && mid == c
    ensures er.Some? && key in c ==> mid == c
    ensures mode.Truthful? ==> UpsertOutcome(c, key, obj, er, neverDelete, mid, e)
    ensures SparesBut(Upsert(key, obj, er, neverDelete, k), trace, k(e), rest, key)
    ensures er.Some? && er.value != NotFound ==> SparesAll(Upsert(key, obj, er, neverDelete, k), trace, k(e), rest)
  {
    if er.Some? && er.value != NotFound {
      e, mid, rest := er, c, trace;
    } else {
      var p := Upsert(key, obj, er, neverDelete, k);
      var r, c1, t1 := FirstCall(p, c, mode, trace, after, err);
      if er.Some? || !(r.Err? && ShouldRecreateResource(r.error) && !neverDelete) {
        e, mid, rest := ErrorOf(r), c1, t1;
      } else {
        e, mid, rest := RecreateRun(key, obj, k, r, c1, mode, t1, after, err);
      }
    }
  }

  /** Delete, then create; the error that caused it is returned even when both succeed. */
  lemma RecreateRun(
    key: Key, obj: Obj, k: Option<ApiError> -> Prog, r: Response,
    c: Cluster, mode: Mode, trace: seq<Event>, after: Cluster, err: Option<ApiError>)
    returns (e: Option<ApiError>, mid: Cluster, rest: seq<Event>)
    requires r.Err? && ShouldRecreateResource(r.error)
    requires Runs(Updated(key, obj, false, k, r), c, mode, trace, after, err)
    ensures Runs(k(e), mid, mode, rest, after, err)
    ensures e.Some? && SameExcept(c, mid, {key})
    ensures key in mid ==> (key in c && mid[key] == c[key]) || Admits(obj, mid[key])
    ensures mode.Truthful? && key in c ==> e == Some(r.error) && key in mid && Admits(obj, mid[key])
    ensures SparesBut(Updated(key, obj, false, k, r), trace, k(e), rest, key)
  {
    var d, c2, t2 := FirstCall(Updated(key, obj, false, k, r), c, mode, trace, after, err);
    if d.Err? {
      e, mid, rest := ErrorOf(d), c2, t2;
    } else {
      var w, c3, t3 := FirstCall(Cleared(key, obj, r.error, k, d), c2, mode, t2, after, err);
      e, mid, rest := Some(if w.Err? then w.error else r.error), c3, t3;
    }
  }

  /** Only a rejected selector makes an upsert delete: anything else that goes wrong leaves the object there. */
  lemma UpsertKeeps(
    key: Key, obj: Obj, er: Option<ApiError>, neverDelete: bool,
    c: Cluster, mode: Mode, trace: seq<Event>, after: Cluster, err: Option<ApiError>)
    requires Runs(Upsert(key, obj, er, neverDelete, Finish), c, mode, trace, after, err)
    requires !mode.Faulty? && key in c && !Rejects(key.kind, c[key], obj)
    ensures key in after
  {
    if er == None || er == Some(NotFound) {
      var r, c1, t1 := FirstCall(Upsert(key, obj, er, neverDelete, Finish), c, mode, trace, after, err);
      ReturnedRun(ErrorOf(r), c1, mode, t1, after, err);
    } else {
      ReturnedRun(er, c, mode, trace, after, err);
    }
  }

  // ----- Deployment -----

  /** An existing Deployment that differs and whose selector the update would change. */
  predicate DeploymentPending(ab: AppBundle, d: Deployment, c: Cluster) {
    var key := OwnKey(ab, DeploymentKind);
    key in c && !UpToDate(DeploymentObj(d), c[key]) && Rejects(DeploymentKind, c[key], DeploymentObj(d))
  }

  predicate DeploymentDone(ab: AppBundle, d: Deployment, c: Cluster) {
    var key := OwnKey(ab, DeploymentKind);
    key in c && UpToDate(DeploymentObj(d), c[key])
  }

  lemma DeploymentRun(
    ab: AppBundle, grow: nat -> nat, d: Deployment,
    c: Cluster, mode: Mode, trace: seq<Event>, after: Cluster, err: Option<ApiError>)
    requires Dereferenceable(ab) && ExpectedDeployment(ab, grow) == Ok(d)
    requires Runs(DeploymentProg(ab, grow), c, mode, trace, after, err)
    ensures SameExcept(c, after, {OwnKey(ab, DeploymentKind)})
    ensures !mode.Faulty? && DeploymentPending(ab, d, after) ==> DeploymentPending(ab, d, c)
    ensures !mode.Faulty? && err == None ==> DeploymentDone(ab, d, after)
    ensures mode.Truthful? && err == None ==> !DeploymentPending(ab, d, c)
    ensures mode.Truthful? && err.Some? ==> DeploymentPending(ab, d, c) && DeploymentDone(ab, d, after)
    ensures mode.Truthful? && DeploymentDone(ab, d, c) ==>
      after == c && Spares(DeploymentProg(ab, grow), trace, Everywhere)
  {
    var key, obj := OwnKey(ab, DeploymentKind), DeploymentObj(d);
    var r, c1, t1 := FirstCall(DeploymentProg(ab, grow), c, mode, trace, after, err);
    NoDeploymentNeverMatches(d);
    if UpToDate(obj, CurrentOr(r, ZERO_DEPLOYMENT)) {
      ReturnedRun(None, c1, mode, t1, after, err);
    } else {
      var e, mid, rest := UpsertRun(key, obj, ErrorOf(r), false, Finish, c1, mode, t1, after, err);
      ReturnedRun(e, mid, mode, rest, after, err);
    }
  }

  /** A Deployment whose selector stays is never deleted, whatever is cancelled. */
  lemma DeploymentKept(
    ab: AppBundle, grow: nat -> nat, d: Deployment,
    c: Cluster, mode: Mode, trace: seq<Event>, after: Cluster, err: Option<ApiError>)
    requires Dereferenceable(ab) && ExpectedDeployment(ab, grow) == Ok(d)
    requires Runs(DeploymentProg(ab, grow), c, mode, trace, after, err) && !mode.Faulty?
    requires var key := Key(DeploymentKind, ab.namespace, ab.name);
      key in c && !Rejects(DeploymentKind, c[key], DeploymentObj(d))
    ensures Key(DeploymentKind, ab.namespace, ab.name) in after
  {
    var r, c1, t1 := FirstCall(DeploymentProg(ab, grow), c, mode, trace, after, err);
    if UpToDate(DeploymentObj(d), CurrentOr(r, ZERO_DEPLOYMENT)) {
      ReturnedRun(None, c1, mode, t1, after, err);
    } else {
      UpsertKeeps(OwnKey(ab, DeploymentKind), DeploymentObj(d), ErrorOf(r), false, c1, mode, t1, after, err);
    }
  }

  // ----- Service -----

  ghost predicate ServiceDone(ab: AppBundle, c: Cluster) {
    var key := OwnKey(ab, ServiceKind);
    if ab.spec.routes == None then key !in c
    else key in c && UpToDate(ServiceObj(ab, c[key].spec), c[key])
  }

  lemma ServiceRun(
    ab: AppBundle, c: Cluster, mode: Mode, trace: seq<Event>, after: Cluster, err: Option<ApiError>)
    requires Runs(ServiceProg(ab), c, mode, trace, after, err)
    ensures SameExcept(c, after, {OwnKey(ab, ServiceKind)})
    ensures mode.Truthful? ==> err == None
    ensures !mode.Faulty? && err == None ==> ServiceDone(ab, after)
    ensures mode.Truthful? && ServiceDone(ab, c) ==> after == c && Spares(ServiceProg(ab), trace, Everywhere)
  {
    var key := OwnKey(ab, ServiceKind);
    var r, c1, t1 := FirstCall(ServiceProg(ab), c, mode, trace, after, err);
    if ab.spec.routes == None {
      if r == Err(NotFound) {
        ReturnedRun(None, c1, mode, t1, after, err);
      } else {
        var d, c2, t2 := FirstCall(DeleteAndReturn(key), c1, mode, t1, after, err);
        ReturnedRun(ErrorOf(d), c2, mode, t2, after, err);
      }
    } else {
      NoServiceNeverMatches(ab);
      var current := CurrentOr(r, ZERO_SERVICE);
      var expected := ServiceObj(ab, current.spec);
      if UpToDate(expected, current) {
        ReturnedRun(None, c1, mode, t1, after, err);
      } else {
        var e, mid, rest := UpsertRun(key, expected, ErrorOf(r), false, Finish, c1, mode, t1, after, err);
        ReturnedRun(e, mid, mode, rest, after, err);
        if e == None {
          StoredServiceIsFixedPoint(ab, GetGeneratedServiceSpecData(current.spec), mid[key].spec);
        }
      }
    }
  }

  // ----- ExternalSecret -----

  /** A stale ExternalSecret: it is deleted, and the upsert that follows updates what is no longer there. */
  predicate SecretPending(ab: AppBundle, expected: Option<ExternalSecret>, c: Cluster) {
    var key := OwnKey(ab, ExternalSecretKind);
    expected.Some? && key in c && !Derives(SecretObj(expected.value).spec, c[key].spec)
  }

  predicate SecretDone(ab: AppBundle, expected: Option<ExternalSecret>, c: Cluster) {
    var key := OwnKey(ab, ExternalSecretKind);
    if expected == None then key !in c else key in c && Derives(SecretObj(expected.value).spec, c[key].spec)
  }

  lemma NoSecretNeverMatches(e: ExternalSecret)
    ensures !Derives(EncodeExternalSecret(e), ZERO_EXTERNAL_SECRET)
  {
    var spec := EncodeExternalSecret(e);
    assert !Derives(spec.fields[0].fields[1], ZERO_EXTERNAL_SECRET.fields[0].fields[1]);
    assert !Derives(spec.fields[0], ZERO_EXTERNAL_SECRET.fields[0]);
  }

  lemma SecretRun(
    ab: AppBundle, expected: Option<ExternalSecret>,
    c: Cluster, mode: Mode, trace: seq<Event>, after: Cluster, err: Option<ApiError>)
    requires Runs(SecretProg(ab, Ok(expected)), c, mode, trace, after, err)
    ensures SameExcept(c, after, {OwnKey(ab, ExternalSecretKind)})
    ensures !mode.Faulty? && SecretPending(ab, expected, after) ==> SecretPending(ab, expected, c)
    ensures !mode.Faulty? && err == None ==> SecretDone(ab, expected, after)
    ensures mode.Truthful? && err == None ==> !SecretPending(ab, expected, c)
    ensures mode.Truthful? && err.Some? ==> SecretPending(ab, expected, c) && !SecretPending(ab, expected, after)
    ensures mode.Truthful? && SecretDone(ab, expected, c) ==>
      after == c && Spares(SecretProg(ab, Ok(expected)), trace, Everywhere)
  {
    var r, c1, t1 := FirstCall(SecretProg(ab, Ok(expected)), c, mode, trace, after, err);
    if expected == None {
      NoSecretWanted(ab, r, c, c1, mode, t1, after, err);
    } else {
      SecretWanted(ab, expected.value, r, c, c1, mode, t1, after, err);
    }
  }

  lemma NoSecretWanted(
    ab: AppBundle, r: Response,
    c: Cluster, c1: Cluster, mode: Mode, trace: seq<Event>, after: Cluster, err: Option<ApiError>)
    requires Serves(c, Get(OwnKey(ab, ExternalSecretKind)), r, c1, mode)
    requires Runs(SecretGot(ab, Ok(None), r), c1, mode, trace, after, err)
    ensures SameExcept(c, after, {OwnKey(ab, ExternalSecretKind)})
    ensures mode.Truthful? ==> err == None
    ensures !mode.Faulty? && err == None ==> OwnKey(ab, ExternalSecretKind) !in after
    ensures mode.Truthful? && OwnKey(ab, ExternalSecretKind) !in c ==>
      after == c && Spares(SecretGot(ab, Ok(None), r), trace, Everywhere)
  {
    if r.Err? {
      ReturnedRun(if r.error == NotFound then None else Some(r.error), c1, mode, trace, after, err);
    } else {
      var d, c2, t2 := FirstCall(DeleteAndReturn(OwnKey(ab, ExternalSecretKind)), c1, mode, trace, after, err);
      ReturnedRun(ErrorOf(d), c2, mode, t2, after, err);
    }
  }

  lemma SecretWanted(
    ab: AppBundle, e: ExternalSecret, r: Response,
    c: Cluster, c1: Cluster, mode: Mode, trace: seq<Event>, after: Cluster, err: Option<ApiError>)
    requires Serves(c, Get(OwnKey(ab, ExternalSecretKind)), r, c1, mode)
    requires Runs(SecretGot(ab, Ok(Some(e)), r), c1, mode, trace, after, err)
    ensures SameExcept(c, after, {OwnKey(ab, ExternalSecretKind)})
    ensures !mode.Faulty? && SecretPending(ab, Some(e), after) ==> SecretPending(ab, Some(e), c)
    ensures !mode.Faulty? && err == None ==> SecretDone(ab, Some(e), after)
    ensures mode.Truthful? && err == None ==> !SecretPending(ab, Some(e), c)
    ensures mode.Truthful? && err.Some? ==> SecretPending(ab, Some(e), c) && !SecretPending(ab, Some(e), after)
    ensures mode.Truthful? && SecretDone(ab, Some(e), c) ==>
      after == c && Spares(SecretGot(ab, Ok(Some(e)), r), trace, Everywhere)
  {
    var key, obj := OwnKey(ab, ExternalSecretKind), SecretObj(e);
    NoSecretNeverMatches(e);
    if Derives(obj.spec, CurrentOr(r, ZERO_EXTERNAL_SECRET).spec) {
      ReturnedRun(None, c1, mode, trace, after, err);
    } else {
      var d, c2, t2 := FirstCall(SecretGot(ab, Ok(Some(e)), r), c1, mode, trace, after, err);
      if d.Err? && d.error != NotFound {
        ReturnedRun(Some(d.error), c2, mode, t2, after, err);
      } else {
        var f, mid, rest := UpsertRun(key, obj, ErrorOf(r), false, Finish, c2, mode, t2, after, err);
        ReturnedRun(f, mid, mode, rest, after, err);
      }
    }
  }

  // ----- ConfigMap -----

  function PodsOf(ab: AppBundle, c: Cluster): set<Key> {
    Matching(c, PodKind, None, ab.name)
  }

  predicate ConfigMapDone(ab: AppBundle, c: Cluster) {
    var key := OwnKey(ab, ConfigMapKind);
    match ExpectedConfigMap(ab)
    case None => key !in c
    case Some(data) => key in c && Derives(ConfigMapObj(data).spec, c[key].spec)
  }

  /** The ConfigMap will be written and more than one pod is found afterwards. */
  predicate ConfigMapPending(ab: AppBundle, c: Cluster) {
    ExpectedConfigMap(ab).Some? && !ConfigMapDone(ab, c) && |PodsOf(ab, c)| > 1
  }

  lemma NoConfigMapNeverMatches(ab: AppBundle)
    ensures ExpectedConfigMap(ab).Some? ==>
      !Derives(ConfigMapObj(ExpectedConfigMap(ab).value).spec, ZERO_CONFIG_MAP)
  {
    if ExpectedConfigMap(ab).Some? {
      var data := ExpectedConfigMap(ab).value;
      var k :| k in data;
      assert k in StringMap(data).entries;
    }
  }

  /** Only the bundle's own ConfigMap is written, and only its own pods are deleted. */
  ghost predicate ConfigEffect(ab: AppBundle, c: Cluster, after: Cluster) {
    forall k :: k != OwnKey(ab, ConfigMapKind) ==>
      && (k in after ==> k in c && after[k] == c[k])
      && (k in c && k !in after ==> k in PodsOf(ab, c))
  }

  lemma ConfigMapRun(
    ab: AppBundle, c: Cluster, mode: Mode, trace: seq<Event>, after: Cluster, err: Option<ApiError>)
    requires Runs(ConfigMapProg(ab), c, mode, trace, after, err)
    ensures ConfigEffect(ab, c, after)
    ensures !mode.Faulty? && ConfigMapDone(ab, c) ==> after == c
    ensures !mode.Faulty? && err == None && !ConfigMapDone(ab, c) && ExpectedConfigMap(ab).Some? ==>
      PodsOf(ab, after) == {}
    ensures !mode.Faulty? && ConfigMapPending(ab, after) ==> ConfigMapPending(ab, c)
    ensures !mode.Faulty? && err == None ==> ConfigMapDone(ab, after)
    ensures mode.Truthful? && err == None ==> !ConfigMapPending(ab, c)
    ensures mode.Truthful? && err.Some? ==> ConfigMapPending(ab, c) && ConfigMapDone(ab, after)
    ensures mode.Truthful? && ConfigMapDone(ab, c) ==> after == c && Spares(ConfigMapProg(ab), trace, Everywhere)
  {
    var key := OwnKey(ab, ConfigMapKind);
    var r, c1, t1 := FirstCall(ConfigMapProg(ab), c, mode, trace, after, err);
    if ExpectedConfigMap(ab) == None {
      if r.Err? {
        ReturnedRun(if r.error == NotFound then None else Some(r.error), c1, mode, t1, after, err);
      } else {
        var d, c2, t2 := FirstCall(DeleteAndReturn(key), c1, mode, t1, after, err);
        ReturnedRun(ErrorOf(d), c2, mode, t2, after, err);
      }
    } else {
      ConfigMapWanted(ab, r, c, c1, mode, t1, after, err);
    }
  }

  /**
   A restart can be lost.  When the context is cancelled after the ConfigMap has
   been written, the run fails with its pods as they were; the ConfigMap is right
   from then on, so by ConfigMapRun no later run of the bundle restarts them.
   */
  lemma RestartCanBeLost(ab: AppBundle, c: Cluster) returns (trace: seq<Event>, after: Cluster)
    requires ExpectedConfigMap(ab).Some? && !ConfigMapDone(ab, c)
    ensures Runs(ConfigMapProg(ab), c, Cancelling, trace, after, Some(Failed))
    ensures ConfigMapDone(ab, after) && PodsOf(ab, after) == PodsOf(ab, c)
  {
    var key, obj := OwnKey(ab, ConfigMapKind), ConfigMapObj(ExpectedConfigMap(ab).value);
    var got := if key in c then Found(c[key]) else Err(NotFound);
    after := c[key := obj];
    NoConfigMapNeverMatches(ab);
    trace := WriteThenCancel(ab, c, ErrorOf(got));
    trace := RunCons(ConfigMapProg(ab), c, Cancelling, got, c, trace, after, Some(Failed));
    WrittenIsDone(ab, c);
    PodsUntouched(ab, c, after, key);
  }

  lemma WrittenIsDone(ab: AppBundle, c: Cluster)
    requires ExpectedConfigMap(ab).Some?
    ensures ConfigMapDone(ab, c[OwnKey(ab, ConfigMapKind) := ConfigMapObj(ExpectedConfigMap(ab).value)])
  {
    DerivesReflexive(ConfigMapObj(ExpectedConfigMap(ab).value).spec);
  }

  /** The ConfigMap is written and the context is cancelled before the pods are listed. */
  lemma WriteThenCancel(ab: AppBundle, c: Cluster, er: Option<ApiError>) returns (trace: seq<Event>)
    requires ExpectedConfigMap(ab).Some?
    requires er == if OwnKey(ab, ConfigMapKind) in c then None else Some(NotFound)
    ensures var key, obj := OwnKey(ab, ConfigMapKind), ConfigMapObj(ExpectedConfigMap(ab).value);
      Runs(Upsert(key, obj, er, false, AfterConfigMap(ab)), c, Cancelling, trace, c[key := obj], Some(Failed))
  {
    var key, obj := OwnKey(ab, ConfigMapKind), ConfigMapObj(ExpectedConfigMap(ab).value);
    var after := c[key := obj];
    trace := RunCons(RestartPod(ab), after, Cancelling, Err(Failed), after, [], after, Some(Failed));
    UpsertDone(key, obj, er, AfterConfigMap(ab));
    DerivesReflexive(obj.spec);
    trace := RunCons(
      Upsert(key, obj, er, false, AfterConfigMap(ab)), c, Cancelling, Done, after, trace, after, Some(Failed));
  }

  lemma UpsertDone(key: Key, obj: Obj, er: Option<ApiError>, k: Option<ApiError> -> Prog)
    requires er == None || er == Some(NotFound)
    ensures var p := Upsert(key, obj, er, false, k);
      p.Call? && p.req == (if er == None then Update(key, obj) else Create(key, obj)) && p.k(Done) == k(None)
  {
    var p := Upsert(key, obj, er, false, k);
    assert ErrorOf(Response.Done) == None;
    if er == None {
      assert p.k(Response.Done) == Updated(key, obj, false, k, Response.Done);
    } else {
      assert p.k(Response.Done) == k(ErrorOf(Response.Done));
    }
  }

  lemma ConfigMapWanted(
    ab: AppBundle, r: Response,
    c: Cluster, c1: Cluster, mode: Mode, trace: seq<Event>, after: Cluster, err: Option<ApiError>)
    requires ExpectedConfigMap(ab).Some?
    requires Serves(c, Get(OwnKey(ab, ConfigMapKind)), r, c1, mode)
    requires Runs(ConfigMapGot(ab, r), c1, mode, trace, after, err)
    ensures ConfigEffect(ab, c, after)
    ensures !mode.Faulty? && ConfigMapDone(ab, c) ==> after == c
    ensures !mode.Faulty? && err == None && !ConfigMapDone(ab, c) ==> PodsOf(ab, after) == {}
    ensures !mode.Faulty? && ConfigMapPending(ab, after) ==> ConfigMapPending(ab, c)
    ensures !mode.Faulty? && err == None ==> ConfigMapDone(ab, after)
    ensures mode.Truthful? && err == None ==> !ConfigMapPending(ab, c)
    ensures mode.Truthful? && err.Some? ==> ConfigMapPending(ab, c) && ConfigMapDone(ab, after)
    ensures mode.Truthful? && ConfigMapDone(ab, c) ==> after == c && Spares(ConfigMapGot(ab, r), trace, Everywhere)
  {
    var key, obj := OwnKey(ab, ConfigMapKind), ConfigMapObj(ExpectedConfigMap(ab).value);
    NoConfigMapNeverMatches(ab);
    if Derives(obj.spec, CurrentOr(r, ZERO_CONFIG_MAP).spec) {
      ReturnedRun(None, c1, mode, trace, after, err);
    } else {
      var e, mid, rest := UpsertRun(key, obj, ErrorOf(r), false, AfterConfigMap(ab), c1, mode, trace, after, err);
      ConfigMapWritten(ab, r, c, c1, mode, e, mid, rest, after, err);
    }
  }

  lemma ConfigMapWritten(
    ab: AppBundle, r: Response, c: Cluster, c1: Cluster, mode: Mode,
    e: Option<ApiError>, mid: Cluster, trace: seq<Event>, after: Cluster, err: Option<ApiError>)
    requires ExpectedConfigMap(ab).Some? && Serves(c, Get(OwnKey(ab, ConfigMapKind)), r, c1, mode)
    requires var obj := ConfigMapObj(ExpectedConfigMap(ab).value);
      && LeftAs(c1, mid, OwnKey(ab, ConfigMapKind), obj)
      && (e == None ==> OwnKey(ab, ConfigMapKind) in mid && Admits(obj, mid[OwnKey(ab, ConfigMapKind)]))
      && (mode.Truthful? ==>
        !ConfigMapDone(ab, c) && UpsertOutcome(c1, OwnKey(ab, ConfigMapKind), obj, ErrorOf(r), false, mid, e))
    requires !mode.Faulty? ==> (mid == c1 && e.Some?) || !ConfigMapDone(ab, c)
    requires Runs(AfterConfigMap(ab)(e), mid, mode, trace, after, err)
    ensures ConfigEffect(ab, c, after)
    ensures !mode.Faulty? && ConfigMapDone(ab, c) ==> after == c
    ensures !mode.Faulty? && err == None ==> PodsOf(ab, after) == {}
    ensures !mode.Faulty? && ConfigMapPending(ab, after) ==> ConfigMapPending(ab, c)
    ensures mode.Truthful? ==> ConfigMapDone(ab, after) && (err.Some? <==> ConfigMapPending(ab, c))
    ensures !mode.Faulty? && err == None ==> ConfigMapDone(ab, after)
  {
    var key := OwnKey(ab, ConfigMapKind);
    assert c1 == c;
    PodsUntouched(ab, c, mid, key);
    if e.Some? {
      ReturnedRun(e, mid, mode, trace, after, err);
    } else {
      assert ConfigMapDone(ab, mid);
      RestartRun(ab, mid, mode, trace, after, err);
    }
    EffectOf(ab, c, mid, after);
  }

  lemma EffectOf(ab: AppBundle, c: Cluster, mid: Cluster, after: Cluster)
    requires SameExcept(c, mid, {OwnKey(ab, ConfigMapKind)}) && ConfigEffect(ab, mid, after)
    ensures ConfigEffect(ab, c, after)
  {
    PodsUntouched(ab, c, mid, OwnKey(ab, ConfigMapKind));
    forall k | k != OwnKey(ab, ConfigMapKind) ensures (k in c <==> k in mid) && (k in c ==> c[k] == mid[k]) {
      Untouched(c, mid, {OwnKey(ab, ConfigMapKind)}, k);
    }
  }

  lemma PodsUntouched(ab: AppBundle, c: Cluster, mid: Cluster, key: Key)
    requires SameExcept(c, mid, {key}) && key.kind == ConfigMapKind
    ensures PodsOf(ab, mid) == PodsOf(ab, c)
  {
    forall k: Key | k.kind == PodKind ensures (k in c <==> k in mid) && (k in c ==> c[k] == mid[k]) {
      Untouched(c, mid, {key}, k);
    }
  }

  lemma PodDeleted(ab: AppBundle, c: Cluster, after: Cluster, pod: Key)
    requires pod.kind == PodKind && (after == c || after == c - {pod})
    ensures ConfigMapDone(ab, c) ==> ConfigMapDone(ab, after)
    ensures PodsOf(ab, after) <= PodsOf(ab, c)
    ensures pod in PodsOf(ab, c) ==> ConfigEffect(ab, c, after)
    ensures after == c - {pod} ==> PodsOf(ab, after) == PodsOf(ab, c) - {pod}
  {
  }

  lemma RestartRun(
    ab: AppBundle, c: Cluster, mode: Mode, trace: seq<Event>, after: Cluster, err: Option<ApiError>)
    requires Runs(RestartPod(ab), c, mode, trace, after, err)
    ensures mode.Truthful? ==> (err.Some? <==> |PodsOf(ab, c)| > 1)
    ensures ConfigEffect(ab, c, after)
    ensures !mode.Faulty? && err == None ==> PodsOf(ab, after) == {}
    ensures ConfigMapDone(ab, c) ==> ConfigMapDone(ab, after)
    ensures PodsOf(ab, after) <= PodsOf(ab, c)
  {
    var l, c1, t1 := FirstCall(RestartPod(ab), c, mode, trace, after, err);
    var keys := ListedKeys(l);
    if l.Err? {
      ReturnedRun(Some(l.error), c1, mode, t1, after, err);
    } else {
      EnumerationSize(keys, PodsOf(ab, c));
      if |keys| == 0 {
        ReturnedRun(None, c1, mode, t1, after, err);
      } else if |keys| > 1 {
        ReturnedRun(Some(Failed), c1, mode, t1, after, err);
      } else {
        OneElement(keys, PodsOf(ab, c));
        DeletePodRun(ab, keys[0], c1, mode, t1, after, err);
      }
    }
  }

  lemma OneElement(keys: seq<Key>, s: set<Key>)
    requires Enumerates(keys, s) && |keys| == 1
    ensures s == {keys[0]}
  {
    assert keys[0] in keys;
  }

  lemma DeletePodRun(
    ab: AppBundle, pod: Key, c: Cluster, mode: Mode, trace: seq<Event>, after: Cluster, err: Option<ApiError>)
    requires PodsOf(ab, c) == {pod} && Runs(DeleteAndReturn(pod), c, mode, trace, after, err)
    ensures mode.Truthful? ==> err == None
    ensures ConfigEffect(ab, c, after)
    ensures !mode.Faulty? && err == None ==> PodsOf(ab, after) == {}
    ensures ConfigMapDone(ab, c) ==> ConfigMapDone(ab, after)
    ensures PodsOf(ab, after) <= PodsOf(ab, c)
  {
    assert pod in PodsOf(ab, c);
    var d, c2, t2 := FirstCall(DeleteAndReturn(pod), c, mode, trace, after, err);
    ReturnedRun(ErrorOf(d), c2, mode, t2, after, err);
    PodDeleted(ab, c, after, pod);
  }

  lemma {:induction false} EnumerationSize(keys: seq<Key>, s: set<Key>)
    requires Enumerates(keys, s)
    ensures |keys| == |s|
  {
    if keys == [] {
      assert s == {} by {
        assert forall k | k in s :: k in keys;
      }
    } else {
      forall k | k in s - {keys[0]} ensures k in keys[1..] {
        var i :| 0 <= i < |keys| && keys[i] == k;
        assert keys[1..][i - 1] == k;
      }
      EnumerationSize(keys[1..], s - {keys[0]});
    }
  }
}
