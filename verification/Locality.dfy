/** The six reconcilers keep to disjoint kinds of objects. */
module Locality {
  import opened Options
  import opened KeyOrder
  import opened Bundle
  import opened DeepDerivative
  import opened DeploymentCompiler
  import opened ConfigMapCompiler
  import opened ServiceCompiler
  import opened IngressCompiler
  import opened ClaimCompiler
  import opened Api
  import opened Programs
  import opened Interleaving

  lemma UpsertTame(
    key: Key, obj: Obj, er: Option<ApiError>, neverDelete: bool, k: Option<ApiError> -> Prog, kinds: set<Kind>)
    requires key.kind in kinds && forall e :: Tame(k(e), kinds)
    ensures Tame(Upsert(key, obj, er, neverDelete, k), kinds)
  {
    var p := Upsert(key, obj, er, neverDelete, k);
    if er == Some(NotFound) {
      forall r ensures Tame(p.k(r), kinds) {
        assert p.k(r) == k(ErrorOf(r));
      }
    } else if er == None {
      forall r ensures Tame(p.k(r), kinds) {
        assert p.k(r) == Updated(key, obj, neverDelete, k, r);
        UpdatedTame(key, obj, neverDelete, k, r, kinds);
      }
    }
  }

  lemma UpdatedTame(
    key: Key, obj: Obj, neverDelete: bool, k: Option<ApiError> -> Prog, r: Response, kinds: set<Kind>)
    requires key.kind in kinds && forall e :: Tame(k(e), kinds)
    ensures Tame(Updated(key, obj, neverDelete, k, r), kinds)
  {
    var p := Updated(key, obj, neverDelete, k, r);
    if r.Err? && ShouldRecreateResource(r.error) && !neverDelete {
      forall d ensures Tame(p.k(d), kinds) {
        var q := Cleared(key, obj, r.error, k, d);
        assert p.k(d) == q;
        if !d.Err? {
          forall w ensures Tame(q.k(w), kinds) {
            assert q.k(w) == k(Some(if w.Err? then w.error else r.error));
          }
        }
      }
    }
  }

  lemma DeleteTame(key: Key, kinds: set<Kind>)
    requires key.kind in kinds
    ensures Tame(DeleteAndReturn(key), kinds)
  {
    assert forall r :: Tame(DeleteAndReturn(key).k(r), kinds);
  }

  lemma FinishTame(kinds: set<Kind>)
    ensures forall e :: Tame(Finish(e), kinds)
  {
  }

  lemma DeploymentTame(ab: AppBundle, grow: nat -> nat)
    requires Dereferenceable(ab)
    ensures Tame(DeploymentProg(ab, grow), {DeploymentKind})
  {
    FinishTame({DeploymentKind});
    forall r ensures Tame(DeploymentGot(ab, grow, r), {DeploymentKind}) {
      var expected := ExpectedDeployment(ab, grow);
      if expected.Ok? {
        UpsertTame(OwnKey(ab, DeploymentKind), DeploymentObj(expected.value), ErrorOf(r), false, Finish,
          {DeploymentKind});
      }
    }
    var p := DeploymentProg(ab, grow);
    forall r ensures Tame(p.k(r), {DeploymentKind}) {
      assert p.k(r) == DeploymentGot(ab, grow, r);
    }
  }

  lemma ServiceTame(ab: AppBundle)
    ensures Tame(ServiceProg(ab), {ServiceKind})
  {
    FinishTame({ServiceKind});
    var p := ServiceProg(ab);
    forall r ensures Tame(p.k(r), {ServiceKind}) {
      assert p.k(r) == ServiceGot(ab, r);
      DeleteTame(OwnKey(ab, ServiceKind), {ServiceKind});
      var expected := ServiceObj(ab, CurrentOr(r, ZERO_SERVICE).spec);
      UpsertTame(OwnKey(ab, ServiceKind), expected, ErrorOf(r), false, Finish, {ServiceKind});
    }
  }

  lemma {:induction false} UpsertIngressesTame(ab: AppBundle, keys: seq<string>)
    requires RoutesReady(ab) && forall k :: k in keys ==> WantedKey(ab, k)
    ensures Tame(UpsertIngresses(ab, keys), {IngressKind})
    decreases |keys|
  {
    if keys != [] {
      UpsertIngressesTame(ab, keys[1..]);
      var p := UpsertIngresses(ab, keys);
      forall r ensures Tame(p.k(r), {IngressKind}) {
        assert p.k(r) == IngressGot(ab, keys, r);
        forall e ensures Tame(AfterIngress(ab, keys)(e), {IngressKind}) {
          assert AfterIngress(ab, keys)(e) == if e.Some? then Ret(e) else UpsertIngresses(ab, keys[1..]);
        }
        UpsertTame(IngressKey(ab, keys[0]), IngressObj(ab, keys[0]), ErrorOf(r), false, AfterIngress(ab, keys),
          {IngressKind});
      }
    }
  }

  lemma {:induction false} DeleteIngressesTame(ab: AppBundle, items: seq<Key>)
    requires RoutesReady(ab) && forall k :: k in items ==> k.kind == IngressKind
    ensures Tame(DeleteIngresses(ab, items), {IngressKind})
    decreases |items|
  {
    if items == [] {
      UpsertIngressesTame(ab, WantedKeys(ab));
    } else {
      assert items[0] in items;
      DeleteIngressesTame(ab, items[1..]);
      if items[0].name !in NamesOf(ab, WantedKeys(ab)) {
        var p := DeleteIngresses(ab, items);
        forall r ensures Tame(p.k(r), {IngressKind}) {
          assert p.k(r) == if r.Err? then Ret(Some(r.error)) else DeleteIngresses(ab, items[1..]);
        }
      }
    }
  }

  lemma IngressTame(ab: AppBundle)
    requires RoutesReady(ab)
    ensures Tame(IngressProg(ab), {IngressKind})
  {
    var p := IngressProg(ab);
    forall r | Fits(p.req, r) ensures Tame(p.k(r), {IngressKind}) {
      assert p.k(r) == IngressListed(ab, r);
      DeleteIngressesTame(ab, ListedKeys(r));
    }
  }

  const CONFIG_KINDS := {ConfigMapKind, PodKind}

  lemma ConfigMapTame(ab: AppBundle)
    ensures Tame(ConfigMapProg(ab), CONFIG_KINDS)
  {
    var p := ConfigMapProg(ab);
    forall r ensures Tame(p.k(r), CONFIG_KINDS) {
      assert p.k(r) == ConfigMapGot(ab, r);
      DeleteTame(OwnKey(ab, ConfigMapKind), CONFIG_KINDS);
      if ExpectedConfigMap(ab).Some? {
        RestartTame(ab);
        forall e ensures Tame(AfterConfigMap(ab)(e), CONFIG_KINDS) {
        }
        UpsertTame(OwnKey(ab, ConfigMapKind), ConfigMapObj(ExpectedConfigMap(ab).value), ErrorOf(r), false,
                   AfterConfigMap(ab), CONFIG_KINDS);
      }
    }
  }

  lemma RestartTame(ab: AppBundle)
    ensures Tame(RestartPod(ab), CONFIG_KINDS)
  {
    forall r | Fits(RestartPod(ab).req, r) ensures Tame(RestartPod(ab).k(r), CONFIG_KINDS) {
      if |ListedKeys(r)| == 1 {
        assert r.keys[0] in r.keys;
        DeleteTame(r.keys[0], CONFIG_KINDS);
      }
    }
  }

  lemma SecretTame(ab: AppBundle, expected: SecretOutcome)
    ensures Tame(SecretProg(ab, expected), {ExternalSecretKind})
  {
    var p := SecretProg(ab, expected);
    forall r ensures Tame(p.k(r), {ExternalSecretKind}) {
      assert p.k(r) == SecretGot(ab, expected, r);
      SecretGotTame(ab, expected, r);
    }
  }

  lemma SecretGotTame(ab: AppBundle, expected: SecretOutcome, r: Response)
    ensures Tame(SecretGot(ab, expected, r), {ExternalSecretKind})
  {
    var key := OwnKey(ab, ExternalSecretKind);
    DeleteTame(key, {ExternalSecretKind});
    if expected.Ok? && expected.value.Some? {
      var e := expected.value.value;
      FinishTame({ExternalSecretKind});
      forall d ensures Tame(SecretDeleted(ab, e, r, d), {ExternalSecretKind}) {
        UpsertTame(key, SecretObj(e), ErrorOf(r), false, Finish, {ExternalSecretKind});
      }
    }
  }

  lemma {:induction false} VolumeLoopTame(ab: AppBundle, keys: seq<string>)
    requires VolumesReady(ab) && forall k :: k in keys ==> k in Entries(ab.spec.volumes)
    ensures Tame(VolumeLoop(ab, keys), {ClaimKind})
    decreases |keys|
  {
    if keys != [] {
      VolumeLoopTame(ab, keys[1..]);
      AfterClaimTame(ab, keys);
      var kind := KindOf(Entries(ab.spec.volumes)[keys[0]]);
      if kind == Existing {
        ExistingTame(ab, keys);
      } else if kind == Claimed {
        ClaimTame(ab, keys);
      }
    }
  }

  lemma AfterClaimTame(ab: AppBundle, keys: seq<string>)
    requires VolumesReady(ab) && keys != [] && forall k :: k in keys ==> k in Entries(ab.spec.volumes)
    requires Tame(VolumeLoop(ab, keys[1..]), {ClaimKind})
    ensures forall e :: Tame(AfterClaim(ab, keys)(e), {ClaimKind})
  {
    forall e ensures Tame(AfterClaim(ab, keys)(e), {ClaimKind}) {
      assert AfterClaim(ab, keys)(e) == if e.Some? then Ret(e) else VolumeLoop(ab, keys[1..]);
    }
  }

  lemma ExistingTame(ab: AppBundle, keys: seq<string>)
    requires VolumesReady(ab) && keys != [] && forall k :: k in keys ==> k in Entries(ab.spec.volumes)
    requires KindOf(Entries(ab.spec.volumes)[keys[0]]) == Existing
    requires Tame(VolumeLoop(ab, keys[1..]), {ClaimKind})
    requires forall e :: Tame(AfterClaim(ab, keys)(e), {ClaimKind})
    ensures Tame(VolumeLoop(ab, keys), {ClaimKind})
  {
    var p, v := VolumeLoop(ab, keys), Entries(ab.spec.volumes)[keys[0]];
    assert p.Call? && p.req == Get(ExistingKey(ab, v));
    forall r ensures Tame(p.k(r), {ClaimKind}) {
      assert p.k(r) == ExistingGot(ab, keys, r);
      var current := CurrentOr(r, ZERO_CLAIM);
      UpsertTame(ExistingKey(ab, v), Obj(ClaimLabels(ab, v) + current.labels, current.spec), ErrorOf(r), true,
                 AfterClaim(ab, keys), {ClaimKind});
    }
  }

  lemma ClaimTame(ab: AppBundle, keys: seq<string>)
    requires VolumesReady(ab) && keys != [] && forall k :: k in keys ==> k in Entries(ab.spec.volumes)
    requires KindOf(Entries(ab.spec.volumes)[keys[0]]) == Claimed
    requires Tame(VolumeLoop(ab, keys[1..]), {ClaimKind})
    requires forall e :: Tame(AfterClaim(ab, keys)(e), {ClaimKind})
    ensures Tame(VolumeLoop(ab, keys), {ClaimKind})
  {
    var p, v := VolumeLoop(ab, keys), Entries(ab.spec.volumes)[keys[0]];
    assert p.Call? && p.req == Get(ClaimKey(ab, keys[0]));
    forall r ensures Tame(p.k(r), {ClaimKind}) {
      assert p.k(r) == ClaimGot(ab, keys, r);
      var expected, current := ClaimObj(ab, v), CurrentOr(r, ZERO_CLAIM);
      UpsertTame(ClaimKey(ab, keys[0]),
                 if Derives(expected.spec, current.spec) then Obj(expected.labels, current.spec) else expected,
                 ErrorOf(r), true, AfterClaim(ab, keys), {ClaimKind});
    }
  }

  lemma VolumesTame(ab: AppBundle)
    requires VolumesReady(ab)
    ensures Tame(VolumesProg(ab), {ClaimKind})
  {
    VolumeLoopTame(ab, SortedKeys(Entries(ab.spec.volumes).Keys));
  }

  // ----- The pass of one bundle -----

  /** What a pass takes for granted: no nil pointer is followed. */
  predicate Compilable(ab: AppBundle) {
    Dereferenceable(ab) && RoutesReady(ab) && VolumesReady(ab)
  }

  /** The six programs in the order RunReconciles is given them; secret is what this pass compiled
      the ExternalSecret to. */
  ghost function Reconcilers(ab: AppBundle, grow: nat -> nat, secret: SecretOutcome): seq<Prog>
    requires Compilable(ab)
  {
    [VolumesProg(ab), ServiceProg(ab), DeploymentProg(ab, grow), IngressProg(ab), ConfigMapProg(ab),
      SecretProg(ab, secret)]
  }

  const KINDS: seq<set<Kind>> :=
    [{ClaimKind}, {ServiceKind}, {DeploymentKind}, {IngressKind}, {ConfigMapKind, PodKind}, {ExternalSecretKind}]

  /** The six keep to disjoint kinds and come to an end, whatever the server answers. */
  lemma ReconcilersKeep(ab: AppBundle, grow: nat -> nat, secret: SecretOutcome)
    requires Compilable(ab)
    ensures AllKeep(Reconcilers(ab, grow, secret), KINDS) && Disjoint(KINDS)
  {
    VolumesTame(ab);
    ServiceTame(ab);
    DeploymentTame(ab, grow);
    IngressTame(ab);
    ConfigMapTame(ab);
    SecretTame(ab, secret);
  }

  ghost function Start(ab: AppBundle, grow: nat -> nat, secret: SecretOutcome, c: Cluster): PassState
    requires Compilable(ab)
  {
    PassState(c, Reconcilers(ab, grow, secret), false, false)
  }

  /** Every program begins by reading, or has nothing to do. */
  lemma NothingFailsAtStart(ab: AppBundle, grow: nat -> nat, secret: SecretOutcome)
    requires Compilable(ab)
    ensures forall p :: p in Reconcilers(ab, grow, secret) ==> !Failing(p)
  {
    VolumeLoopNotFailing(ab, SortedKeys(Entries(ab.spec.volumes).Keys));
  }

  lemma {:induction false} VolumeLoopNotFailing(ab: AppBundle, keys: seq<string>)
    requires VolumesReady(ab) && forall k :: k in keys ==> k in Entries(ab.spec.volumes)
    ensures !Failing(VolumeLoop(ab, keys))
    decreases |keys|
  {
    if keys != [] {
      VolumeLoopNotFailing(ab, keys[1..]);
    }
  }

  /** Confluence for the operator's own six reconcilers. */
  lemma ReconcilersAreSerial(
    ab: AppBundle, grow: nat -> nat, secret: SecretOutcome, c: Cluster, moves: seq<Move>, end: PassState,
    order: seq<nat>)
    requires Compilable(ab) && IsOrder(order, 6)
    requires Pass(Start(ab, grow, secret, c), moves, end) && Finished(end) && !end.cancelled
    ensures InTurn(Reconcilers(ab, grow, secret), order, c, end.cluster)
  {
    ReconcilersKeep(ab, grow, secret);
    NothingFailsAtStart(ab, grow, secret);
    ErrorFreePassIsSerial(Start(ab, grow, secret, c), moves, end, KINDS, order);
  }
}
