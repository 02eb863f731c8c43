/** The six reconcilers as programs over the API. */
module Programs {
  import opened Options
  import opened KeyOrder
  import opened Bundle
  import opened DeepDerivative
  import opened DeploymentCompiler
  import opened DeploymentEncoding
  import opened ConfigMapCompiler
  import opened ExternalSecretCompiler
  import opened ServiceCompiler
  import opened IngressCompiler
  import opened ClaimCompiler
  import opened Api

  function ErrorOf(r: Response): Option<ApiError> {
    if r.Err? then Some(r.error) else None
  }

  /** What the object passed to Get holds afterwards: the zero spec when nothing was read. */
  function CurrentOr(r: Response, zero: Value): Obj {
    if r.Found? then r.obj else Obj(map[], zero)
  }

  function ListedKeys(r: Response): seq<Key> {
    if r.Listed? then r.keys else []
  }

  /** Only an immutable selector makes the operator delete and create. */
  predicate ShouldRecreateResource(e: ApiError) {
    e == SelectorImmutable
  }

  /**
   UpsertResource.  After a successful delete and create the error of the
   rejected update is still what is returned.
   */
  function Upsert(
    key: Key, obj: Obj, er: Option<ApiError>, neverDelete: bool, k: Option<ApiError> -> Prog): Prog
  {
    if er.Some? && er.value != NotFound then k(er)
    else if er.Some? then Call(Create(key, obj), (r: Response) => k(ErrorOf(r)))
    else Call(Update(key, obj), (r: Response) => Updated(key, obj, neverDelete, k, r))
  }

  function Updated(key: Key, obj: Obj, neverDelete: bool, k: Option<ApiError> -> Prog, r: Response): Prog {
    if r.Err? && ShouldRecreateResource(r.error) && !neverDelete
    then Call(Delete(key), (d: Response) => Cleared(key, obj, r.error, k, d))
    else k(ErrorOf(r))
  }

  function Cleared(key: Key, obj: Obj, original: ApiError, k: Option<ApiError> -> Prog, d: Response): Prog {
    if d.Err? then k(ErrorOf(d))
    else Call(Create(key, obj), (r: Response) => k(Some(if r.Err? then r.error else original)))
  }

  function Finish(e: Option<ApiError>): Prog {
    Ret(e)
  }

  function DeleteAndReturn(key: Key): Prog {
    Call(Delete(key), (r: Response) => Ret(ErrorOf(r)))
  }

  function OwnKey(ab: AppBundle, kind: Kind): Key {
    Key(kind, ab.namespace, ab.name)
  }

  // ----- Deployment -----

  function DeploymentObj(d: Deployment): Obj {
    Obj(d.labels, EncodeDeployment(d))
  }

  predicate UpToDate(expected: Obj, current: Obj) {
    Derives(expected.spec, current.spec) && expected.labels == current.labels
  }

  ghost function DeploymentProg(ab: AppBundle, grow: nat -> nat): Prog
    requires Dereferenceable(ab)
  {
    Call(Get(OwnKey(ab, DeploymentKind)), (r: Response) => DeploymentGot(ab, grow, r))
  }

  ghost function DeploymentGot(ab: AppBundle, grow: nat -> nat, r: Response): Prog
    requires Dereferenceable(ab)
  {
    match ExpectedDeployment(ab, grow)
    case Failure(_) => Ret(Some(Failed))
    case Ok(d) =>
      if UpToDate(DeploymentObj(d), CurrentOr(r, ZERO_DEPLOYMENT)) then Ret(None)
      else Upsert(OwnKey(ab, DeploymentKind), DeploymentObj(d), ErrorOf(r), false, Finish)
  }

  // ----- Service -----

  ghost function ServiceObj(ab: AppBundle, current: Value): Obj {
    Obj(DefaultLabels(ab), ExpectedServiceSpec(ab, GetGeneratedServiceSpecData(current)))
  }

  ghost function ServiceProg(ab: AppBundle): Prog {
    Call(Get(OwnKey(ab, ServiceKind)), (r: Response) => ServiceGot(ab, r))
  }

  ghost function ServiceGot(ab: AppBundle, r: Response): Prog {
    if ab.spec.routes == None then
      if r == Err(NotFound) then Ret(None) else DeleteAndReturn(OwnKey(ab, ServiceKind))
    else
      var current := CurrentOr(r, ZERO_SERVICE);
      var expected := ServiceObj(ab, current.spec);
      if UpToDate(expected, current) then Ret(None)
      else Upsert(OwnKey(ab, ServiceKind), expected, ErrorOf(r), false, Finish)
  }

  // ----- Ingress -----

  predicate RoutesReady(ab: AppBundle) {
    forall k :: k in Entries(ab.spec.routes) ==> IngressDereferenceable(Entries(ab.spec.routes)[k])
  }

  predicate WantedKey(ab: AppBundle, key: string) {
    key in Entries(ab.spec.routes) && WantsIngress(Entries(ab.spec.routes)[key])
  }

  function IngressKey(ab: AppBundle, key: string): Key {
    Key(IngressKind, ab.namespace, IngressName(ab, key))
  }

  function IngressObj(ab: AppBundle, key: string): Obj
    requires RoutesReady(ab) && WantedKey(ab, key)
  {
    Obj(DefaultLabels(ab), EncodeIngress(ExpectedIngress(ab, IngressName(ab, key), Entries(ab.spec.routes)[key])))
  }

  ghost function IngressProg(ab: AppBundle): Prog
    requires RoutesReady(ab)
  {
    Call(List(IngressKind, Some(ab.namespace), ab.name), (r: Response) => IngressListed(ab, r))
  }

  ghost function IngressListed(ab: AppBundle, r: Response): Prog
    requires RoutesReady(ab)
  {
    if r.Err? then Ret(Some(r.error))
    else if ab.spec.routes == None && ListedKeys(r) == [] then Ret(None)
    else DeleteIngresses(ab, ListedKeys(r))
  }

  ghost function DeleteIngresses(ab: AppBundle, items: seq<Key>): Prog
    requires RoutesReady(ab)
    decreases |items|
  {
    if items == [] then UpsertIngresses(ab, WantedKeys(ab))
    else if items[0].name in NamesOf(ab, WantedKeys(ab)) then DeleteIngresses(ab, items[1..])
    else Call(Delete(items[0]), (r: Response) =>
      if r.Err? then Ret(Some(r.error)) else DeleteIngresses(ab, items[1..]))
  }

  function UpsertIngresses(ab: AppBundle, keys: seq<string>): Prog
    requires RoutesReady(ab) && forall k :: k in keys ==> WantedKey(ab, k)
    decreases |keys|, 2
  {
    if keys == [] then Ret(None)
    else Call(Get(IngressKey(ab, keys[0])), (r: Response) => IngressGot(ab, keys, r))
  }

  function IngressGot(ab: AppBundle, keys: seq<string>, r: Response): Prog
    requires RoutesReady(ab) && keys != [] && forall k :: k in keys ==> WantedKey(ab, k)
    decreases |keys|, 1
  {
    var expected := IngressObj(ab, keys[0]);
    if Derives(expected.spec, CurrentOr(r, ZERO_INGRESS).spec) then UpsertIngresses(ab, keys[1..])
    else Upsert(IngressKey(ab, keys[0]), expected, ErrorOf(r), false, AfterIngress(ab, keys))
  }

  function AfterIngress(ab: AppBundle, keys: seq<string>): Option<ApiError> -> Prog
    requires RoutesReady(ab) && keys != [] && forall k :: k in keys ==> WantedKey(ab, k)
    decreases |keys|, 0
  {
    (e: Option<ApiError>) => if e.Some? then Ret(e) else UpsertIngresses(ab, keys[1..])
  }

  // ----- ConfigMap -----

  function ConfigMapObj(data: map<string, string>): Obj {
    Obj(map[], EncodeConfigMap(data))
  }

  function ConfigMapProg(ab: AppBundle): Prog {
    Call(Get(OwnKey(ab, ConfigMapKind)), (r: Response) => ConfigMapGot(ab, r))
  }

  function ConfigMapGot(ab: AppBundle, r: Response): Prog {
    match ExpectedConfigMap(ab)
    case None =>
      if r == Err(NotFound) then Ret(None)
      else if r.Err? then Ret(Some(r.error))
      else DeleteAndReturn(OwnKey(ab, ConfigMapKind))
    case Some(data) =>
      if Derives(ConfigMapObj(data).spec, CurrentOr(r, ZERO_CONFIG_MAP).spec) then Ret(None)
      else Upsert(OwnKey(ab, ConfigMapKind), ConfigMapObj(data), ErrorOf(r), false,
        AfterConfigMap(ab))
  }

  function AfterConfigMap(ab: AppBundle): Option<ApiError> -> Prog {
    (e: Option<ApiError>) => if e.Some? then Ret(e) else RestartPod(ab)
  }

  /** The pods are listed in every namespace; more than one is an error after the update has been made. */
  function RestartPod(ab: AppBundle): Prog {
    Call(List(PodKind, None, ab.name), (r: Response) =>
      if r.Err? then Ret(Some(r.error))
      else if |ListedKeys(r)| == 0 then Ret(None)
      else if |ListedKeys(r)| > 1 then Ret(Some(Failed))
      else DeleteAndReturn(ListedKeys(r)[0]))
  }

  // ----- ExternalSecret -----

  function SecretObj(e: ExternalSecret): Obj {
    Obj(map[], EncodeExternalSecret(e))
  }

  /** What CreateExpectedExternalSecret came back with on this pass. */
  type SecretOutcome = Result<Option<ExternalSecret>, CompileError>

  function SecretProg(ab: AppBundle, expected: SecretOutcome): Prog {
    Call(Get(OwnKey(ab, ExternalSecretKind)), (r: Response) => SecretGot(ab, expected, r))
  }

  function SecretGot(ab: AppBundle, expected: SecretOutcome, r: Response): Prog {
    match expected
    case Failure(_) => Ret(Some(Failed))
    case Ok(None) =>
      if r == Err(NotFound) then Ret(None)
      else if r.Err? then Ret(Some(r.error))
      else DeleteAndReturn(OwnKey(ab, ExternalSecretKind))
    case Ok(Some(e)) =>
      if Derives(SecretObj(e).spec, CurrentOr(r, ZERO_EXTERNAL_SECRET).spec) then Ret(None)
      else Call(Delete(OwnKey(ab, ExternalSecretKind)), (d: Response) => SecretDeleted(ab, e, r, d))
  }

  /** The upsert uses the error of the read that came before the delete. */
  function SecretDeleted(ab: AppBundle, e: ExternalSecret, r: Response, d: Response): Prog {
    if d.Err? && d.error != NotFound then Ret(Some(d.error))
    else Upsert(OwnKey(ab, ExternalSecretKind), SecretObj(e), ErrorOf(r), false, Finish)
  }

  // ----- Volumes -----

  predicate VolumesReady(ab: AppBundle) {
    forall k :: k in Entries(ab.spec.volumes) ==> ClaimDereferenceable(Entries(ab.spec.volumes)[k])
  }

  function ExistingKey(ab: AppBundle, v: Volume): Key
    requires KindOf(v) == Existing
  {
    Key(ClaimKind, ab.namespace, v.existingClaim.value)
  }

  function ClaimKey(ab: AppBundle, key: string): Key {
    Key(ClaimKind, ab.namespace, Dashed(ab.name, key))
  }

  function ClaimObj(ab: AppBundle, v: Volume): Obj
    requires KindOf(v) == Claimed && ClaimDereferenceable(v)
  {
    Obj(ClaimLabels(ab, v), EncodeClaim(v))
  }

  ghost function VolumesProg(ab: AppBundle): Prog
    requires VolumesReady(ab)
  {
    VolumeLoop(ab, SortedKeys(Entries(ab.spec.volumes).Keys))
  }

  function VolumeLoop(ab: AppBundle, keys: seq<string>): Prog
    requires VolumesReady(ab) && forall k :: k in keys ==> k in Entries(ab.spec.volumes)
    decreases |keys|, 2
  {
    if keys == [] then Ret(None)
    else
      var v := Entries(ab.spec.volumes)[keys[0]];
      match KindOf(v)
      case Existing => Call(Get(ExistingKey(ab, v)), (r: Response) => ExistingGot(ab, keys, r))
      case Claimed => Call(Get(ClaimKey(ab, keys[0])), (r: Response) => ClaimGot(ab, keys, r))
      case _ => VolumeLoop(ab, keys[1..])
  }

  /** ReconcileExistingPVC: labels are only added, and a label already there wins. */
  function ExistingGot(ab: AppBundle, keys: seq<string>, r: Response): Prog
    requires VolumesReady(ab) && keys != [] && forall k :: k in keys ==> k in Entries(ab.spec.volumes)
    requires KindOf(Entries(ab.spec.volumes)[keys[0]]) == Existing
    decreases |keys|, 1
  {
    var v := Entries(ab.spec.volumes)[keys[0]];
    var current := CurrentOr(r, ZERO_CLAIM);
    var labels := ClaimLabels(ab, v) + current.labels;
    if current.labels == labels then VolumeLoop(ab, keys[1..])
    else Upsert(ExistingKey(ab, v), Obj(labels, current.spec), ErrorOf(r), true, AfterClaim(ab, keys))
  }

  /** ReconcilePVC: the expected claim when the spec differs, the current one relabelled when only labels differ. */
  function ClaimGot(ab: AppBundle, keys: seq<string>, r: Response): Prog
    requires VolumesReady(ab) && keys != [] && forall k :: k in keys ==> k in Entries(ab.spec.volumes)
    requires KindOf(Entries(ab.spec.volumes)[keys[0]]) == Claimed
    decreases |keys|, 1
  {
    var expected := ClaimObj(ab, Entries(ab.spec.volumes)[keys[0]]);
    var current := CurrentOr(r, ZERO_CLAIM);
    if UpToDate(expected, current) then VolumeLoop(ab, keys[1..])
    else Upsert(ClaimKey(ab, keys[0]),
      if Derives(expected.spec, current.spec) then Obj(expected.labels, current.spec) else expected,
      ErrorOf(r), true, AfterClaim(ab, keys))
  }

  function AfterClaim(ab: AppBundle, keys: seq<string>): Option<ApiError> -> Prog
    requires VolumesReady(ab) && keys != [] && forall k :: k in keys ==> k in Entries(ab.spec.volumes)
    decreases |keys|, 0
  {
    (e: Option<ApiError>) => if e.Some? then Ret(e) else VolumeLoop(ab, keys[1..])
  }
}
