/** The AppBundle and AppBundleBase resource types. */
module Bundle {
  import opened Options

  datatype Volume = Volume(
    hostPath: Option<string>,
    emptyDir: Option<bool>,
    path: Option<string>,
    size: Option<string>,
    storageClass: Option<string>,
    existingClaim: Option<string>,
    backup: Option<bool>)

  datatype Config = Config(
    fileName: string,
    content: string,
    existing: Option<string>,
    secrets: map<string, string>,
    dirPath: string,
    copyOver: Option<bool>)

  datatype SourcedEnv = SourcedEnv(externalSecret: string, secret: string, configMap: string, key: string)

  datatype RouteIngress = RouteIngress(domain: Option<string>, auth: Option<bool>)

  datatype Route = Route(
    port: Option<int>,
    targetPort: Option<int>,
    protocol: Option<string>,
    ingress: Option<RouteIngress>)

  datatype Image = Image(repository: Option<string>, tag: Option<string>, pullPolicy: Option<string>)

  datatype HomePage = HomePage(
    description: Option<string>,
    section: Option<string>,
    href: Option<string>,
    icon: Option<string>,
    name: Option<string>,
    groups: Option<string>)

  datatype Backup = Backup(frequency: Option<string>, retain: Option<int>)

  /** A nested Kubernetes object the controller passes on without looking inside. */
  type Opaque = nat

  /** A nil Go map is None; nil and empty differ for routes, where nil means "no Service at all". */
  datatype Spec = Spec(
    base: Option<string>,
    image: Option<Image>,
    nodeSelector: Option<map<string, string>>,
    useNvidia: Option<bool>,
    replicas: Option<int>,
    resources: Option<Opaque>,
    envs: Option<map<string, string>>,
    secretStoreRef: Option<string>,
    sourcedEnvs: Option<map<string, SourcedEnv>>,
    serviceType: Option<string>,
    routes: Option<map<string, Route>>,
    homepage: Option<HomePage>,
    volumes: Option<map<string, Volume>>,
    backup: Option<Backup>,
    selector: Option<Opaque>,
    livenessProbe: Option<Opaque>,
    readinessProbe: Option<Opaque>,
    startupProbe: Option<Opaque>,
    tailscaleName: Option<string>,
    command: seq<string>,
    args: seq<string>,
    configs: Option<map<string, Config>>)

  datatype AppBundle = AppBundle(
    kind: string,
    name: string,
    namespace: string,
    labels: Option<map<string, string>>,
    annotations: Option<map<string, string>>,
    spec: Spec)

  /** AppBundleBase is cluster scoped; its spec has no tailscaleName. */
  datatype AppBundleBase = AppBundleBase(
    name: string,
    labels: Option<map<string, string>>,
    annotations: Option<map<string, string>>,
    spec: Spec)
  {
    /** ToAppBundle: everything but the link to the next base, with the kind replaced. */
    function ToAppBundle(): AppBundle {
      AppBundle("AppBundle", name, "", labels, annotations, spec.(base := None, tailscaleName := None))
    }
  }

  /** Ranging over a nil map is ranging over an empty one. */
  function Entries<V>(m: Option<map<string, V>>): map<string, V> {
    if m.Some? then m.value else map[]
  }

  /** Ingresses and claims are named after the bundle and a key, mutexes after a name and a namespace. */
  function Dashed(name: string, key: string): string {
    name + "-" + key
  }

  /** One name continues the other, and what it adds is missing from its key. */
  ghost predicate Shifted(n1: string, k1: string, n2: string, k2: string) {
    exists s :: n2 == Dashed(n1, s) && k1 == Dashed(s, k2)
  }

  /** Exactly when two names and keys give one object name. */
  lemma DashedEqualIff(n1: string, k1: string, n2: string, k2: string)
    ensures Dashed(n1, k1) == Dashed(n2, k2)
       <==> (n1 == n2 && k1 == k2) || Shifted(n1, k1, n2, k2) || Shifted(n2, k2, n1, k1)
  {
    if Dashed(n1, k1) == Dashed(n2, k2) {
      if |n1| < |n2| {
        LongerIsShifted(n1, k1, n2, k2);
      } else if |n2| < |n1| {
        LongerIsShifted(n2, k2, n1, k1);
      } else {
        assert Dashed(n1, k1)[..|n1|] == n1 && Dashed(n2, k2)[..|n2|] == n2;
        assert Dashed(n1, k1)[|n1| + 1..] == k1 && Dashed(n2, k2)[|n2| + 1..] == k2;
      }
    }
    if Shifted(n1, k1, n2, k2) { ShiftedIsEqual(n1, k1, n2, k2); }
    if Shifted(n2, k2, n1, k1) { ShiftedIsEqual(n2, k2, n1, k1); }
  }

  lemma ShiftedIsEqual(n1: string, k1: string, n2: string, k2: string)
    requires Shifted(n1, k1, n2, k2)
    ensures Dashed(n1, k1) == Dashed(n2, k2)
  {
    var s :| n2 == Dashed(n1, s) && k1 == Dashed(s, k2);
    assert Dashed(n1, Dashed(s, k2)) == Dashed(Dashed(n1, s), k2);
  }

  lemma LongerIsShifted(n1: string, k1: string, n2: string, k2: string)
    requires Dashed(n1, k1) == Dashed(n2, k2) && |n1| < |n2|
    ensures Shifted(n1, k1, n2, k2)
  {
    var all, s := Dashed(n1, k1), n2[|n1| + 1..];
    assert all[..|n1|] == n1 && all[|n1|] == '-' && all[|n1| + 1..] == k1;
    assert all[..|n2|] == n2 && all[|n2|] == '-' && all[|n2| + 1..] == k2;
    assert n2 == all[..|n1|] + [all[|n1|]] + s == Dashed(n1, s);
    assert k1 == all[|n1| + 1..|n2|] + [all[|n2|]] + all[|n2| + 1..] == Dashed(s, k2);
  }

  const APP_BUNDLE_SELECTOR := "appbundle"
  const ARGOCD_INSTANCE := "argocd.argoproj.io/instance"

  /** The labels every derived object carries. */
  function DefaultLabels(ab: AppBundle): map<string, string> {
    UserLabels(Entries(ab.labels)) + OwnLabels(ab)
  }

  function UserLabels(labels: map<string, string>): map<string, string> {
    labels - {ARGOCD_INSTANCE}
  }

  function OwnLabels(ab: AppBundle): map<string, string> {
    map[
      "app.kubernetes.io/instance" := ab.name,
      "app.kubernetes.io/name" := ab.name,
      "atro.xyz/app-bundle" := ab.name,
      APP_BUNDLE_SELECTOR := ab.name
    ]
  }

  /**
   SetDefaultAppBundleLabels.  The user's labels are copied over what is passed
   in, the ArgoCD instance label is left out, and the operator's own labels win
   over everything, whatever order the label map is ranged in.
   */
  method SetDefaultAppBundleLabels(ab: AppBundle, initial: map<string, string>)
    returns (labels: map<string, string>)
    ensures labels == initial + DefaultLabels(ab)
    ensures labels[APP_BUNDLE_SELECTOR] == ab.name
    ensures ARGOCD_INSTANCE in labels ==> ARGOCD_INSTANCE in initial
  {
    labels := CopyUserLabels(Entries(ab.labels), initial);
    labels := SetOwnLabels(ab, labels);
    assert initial + DefaultLabels(ab) == (initial + UserLabels(Entries(ab.labels))) + OwnLabels(ab);
    OwnLabelsWin(ab);
  }

  lemma OwnLabelsWin(ab: AppBundle)
    ensures OwnLabels(ab)[APP_BUNDLE_SELECTOR] == ab.name
    ensures ARGOCD_INSTANCE !in OwnLabels(ab)
  {
    assert ARGOCD_INSTANCE[1] == 'r';
    assert "app.kubernetes.io/instance"[1] == 'p' && "app.kubernetes.io/name"[1] == 'p';
    assert "atro.xyz/app-bundle"[1] == 't' && APP_BUNDLE_SELECTOR[1] == 'p';
  }

  /** The range loop of SetDefaultAppBundleLabels. */
  method CopyUserLabels(user: map<string, string>, initial: map<string, string>)
    returns (labels: map<string, string>)
    ensures labels == initial + UserLabels(user)
  {
    labels := initial;
    var rest := user.Keys;
    NothingCopied(user, initial);
    while rest != {}
      invariant rest <= user.Keys
      invariant labels == CopiedBut(user, rest, initial)
      decreases |rest|
    {
      var key :| key in rest;
      CopyStep(user, rest, key, initial);
      rest := rest - {key};
      if key == ARGOCD_INSTANCE {
        continue;
      }
      labels := labels[key := user[key]];
    }
    AllCopied(user, initial);
  }

  /** The labels when all of user but rest has been copied. */
  function CopiedBut(user: map<string, string>, rest: set<string>, initial: map<string, string>): map<string, string> {
    initial + UserLabels(user - rest)
  }

  lemma NothingCopied(user: map<string, string>, initial: map<string, string>)
    ensures CopiedBut(user, user.Keys, initial) == initial
  {
  }

  lemma AllCopied(user: map<string, string>, initial: map<string, string>)
    ensures CopiedBut(user, {}, initial) == initial + UserLabels(user)
  {
    assert user - {} == user;
  }

  lemma CopyStep(user: map<string, string>, rest: set<string>, key: string, initial: map<string, string>)
    requires key in rest && rest <= user.Keys
    ensures CopiedBut(user, rest - {key}, initial)
         == if key == ARGOCD_INSTANCE then CopiedBut(user, rest, initial)
            else CopiedBut(user, rest, initial)[key := user[key]]
  {
    if key == ARGOCD_INSTANCE {
      assert UserLabels(user - (rest - {key})) == UserLabels(user - rest);
    } else {
      assert UserLabels(user - (rest - {key})) == UserLabels(user - rest)[key := user[key]];
    }
  }

  /** The forced overwrite at the end of SetDefaultAppBundleLabels. */
  method SetOwnLabels(ab: AppBundle, initial: map<string, string>) returns (labels: map<string, string>)
    ensures labels == initial + OwnLabels(ab)
  {
    labels := initial["app.kubernetes.io/instance" := ab.name];
    labels := labels["app.kubernetes.io/name" := ab.name];
    labels := labels["atro.xyz/app-bundle" := ab.name];
    labels := labels[APP_BUNDLE_SELECTOR := ab.name];
    assert labels == initial + OwnLabels(ab);
  }
}
