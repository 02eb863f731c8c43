/**
 Base inheritance.

 Resolving a bundle walks a chain of bases and merges each one into the bundle.
 There are three regimes.  Scalars, pointers and slices are filled when the
 bundle's own value is empty, where a pointer to a zero value counts as empty.
 Struct-valued maps take the union of the keys, and a key on both sides is
 merged field by field in the same first-non-empty way.  String-valued maps also
 take the union of the keys, but there the base overwrites the bundle.
 */
module BaseInheritance {
  import opened Options
  import opened KeyOrder
  import opened Bundle

  // ----- One-level merge: the fill regime -----

  function FillString(dst: string, src: string): string {
    if dst == "" then src else dst
  }

  /** mergo looks through pointers: a pointer to the zero value is replaced by a non-nil source. */
  function FillPtr<T(==)>(dst: Option<T>, src: Option<T>, zero: T): Option<T> {
    match (dst, src)
    case (None, _) => src
    case (_, None) => dst
    case (Some(d), Some(_)) => if d == zero then src else dst
  }

  function FillOpaque(dst: Option<Opaque>, src: Option<Opaque>): Option<Opaque> {
    if dst == None then src else dst
  }

  function FillSlice(dst: seq<string>, src: seq<string>): seq<string> {
    if dst == [] then src else dst
  }

  /** mergo's own map merge, used inside struct values: union of keys, first non-empty value. */
  function FillStringMap(dst: map<string, string>, src: map<string, string>): map<string, string> {
    map k | k in dst.Keys + src.Keys ::
      if k in dst && (dst[k] != "" || k !in src) then dst[k] else src[k]
  }

  function FillVolume(d: Volume, s: Volume): Volume {
    Volume(
      FillPtr(d.hostPath, s.hostPath, ""), FillPtr(d.emptyDir, s.emptyDir, false),
      FillPtr(d.path, s.path, ""), FillPtr(d.size, s.size, ""),
      FillPtr(d.storageClass, s.storageClass, ""), FillPtr(d.existingClaim, s.existingClaim, ""),
      FillPtr(d.backup, s.backup, false))
  }

  function FillConfig(d: Config, s: Config): Config {
    Config(
      FillString(d.fileName, s.fileName), FillString(d.content, s.content),
      FillPtr(d.existing, s.existing, ""), FillStringMap(d.secrets, s.secrets),
      FillString(d.dirPath, s.dirPath), FillPtr(d.copyOver, s.copyOver, false))
  }

  function FillSourcedEnv(d: SourcedEnv, s: SourcedEnv): SourcedEnv {
    SourcedEnv(
      FillString(d.externalSecret, s.externalSecret), FillString(d.secret, s.secret),
      FillString(d.configMap, s.configMap), FillString(d.key, s.key))
  }

  function FillRouteIngress(d: Option<RouteIngress>, s: Option<RouteIngress>): Option<RouteIngress> {
    match (d, s)
    case (None, _) => s
    case (_, None) => d
    case (Some(x), Some(y)) =>
      Some(RouteIngress(FillPtr(x.domain, y.domain, ""), FillPtr(x.auth, y.auth, false)))
  }

  function FillRoute(d: Route, s: Route): Route {
    Route(
      FillPtr(d.port, s.port, 0), FillPtr(d.targetPort, s.targetPort, 0),
      FillPtr(d.protocol, s.protocol, ""), FillRouteIngress(d.ingress, s.ingress))
  }

  function FillImage(d: Option<Image>, s: Option<Image>): Option<Image> {
    match (d, s)
    case (None, _) => s
    case (_, None) => d
    case (Some(x), Some(y)) =>
      Some(Image(
        FillPtr(x.repository, y.repository, ""), FillPtr(x.tag, y.tag, ""),
        FillPtr(x.pullPolicy, y.pullPolicy, "")))
  }

  function FillHomePage(d: Option<HomePage>, s: Option<HomePage>): Option<HomePage> {
    match (d, s)
    case (None, _) => s
    case (_, None) => d
    case (Some(x), Some(y)) =>
      Some(HomePage(
        FillPtr(x.description, y.description, ""), FillPtr(x.section, y.section, ""),
        FillPtr(x.href, y.href, ""), FillPtr(x.icon, y.icon, ""),
        FillPtr(x.name, y.name, ""), FillPtr(x.groups, y.groups, "")))
  }

  function FillBackup(d: Option<Backup>, s: Option<Backup>): Option<Backup> {
    match (d, s)
    case (None, _) => s
    case (_, None) => d
    case (Some(x), Some(y)) =>
      Some(Backup(FillPtr(x.frequency, y.frequency, ""), FillPtr(x.retain, y.retain, 0)))
  }

  // ----- One-level merge: the two map regimes -----

  /** What the transformer does to a map whose values are structs. */
  function UnionWith<V>(dst: map<string, V>, src: map<string, V>, fill: (V, V) -> V): map<string, V> {
    map k | k in dst.Keys + src.Keys ::
      if k in dst && k in src then fill(dst[k], src[k]) else if k in dst then dst[k] else src[k]
  }

  /** The transformer is not consulted when the destination map is nil: mergo then copies the source. */
  function MergeStructMap<V>(
    dst: Option<map<string, V>>, src: Option<map<string, V>>, fill: (V, V) -> V): Option<map<string, V>>
  {
    match (dst, src)
    case (None, _) => src
    case (_, None) => dst
    case (Some(d), Some(s)) => Some(UnionWith(d, s, fill))
  }

  /** For a map of strings the source entry overwrites the destination entry. */
  function MergeStringMap(
    dst: Option<map<string, string>>, src: Option<map<string, string>>): Option<map<string, string>>
  {
    match (dst, src)
    case (None, _) => src
    case (_, None) => dst
    case (Some(d), Some(s)) => Some(d + s)
  }

  /** The kinds of map value the transformer tells apart. */
  datatype ElemKind = StringElem | StructElem

  /**
   mapTransformer: for each source key in sorted order, merge with the existing
   entry when that is a map, slice or struct, and store the outcome.
   */
  method TransformMap<V>(dst: map<string, V>, src: map<string, V>, elem: ElemKind, fill: (V, V) -> V)
    returns (out: map<string, V>)
    ensures out == Transformed(dst, src, elem, fill)
  {
    var actualKeys := GetSortedKeys(src);
    out := dst;
    ghost var done: set<string> := {};
    TransformNothing(dst, src, elem, fill);
    for i := 0 to |actualKeys|
      invariant done == Elements(actualKeys[..i])
      invariant out == Transformed(dst, Only(src, done), elem, fill)
    {
      var k := actualKeys[i];
      NextKey(actualKeys, src.Keys, i);
      TransformStep(dst, src, done, k, elem, fill);
      var v := src[k];
      if k in out && elem.StructElem? {
        v := fill(out[k], v);
      }
      out := out[k := v];
      done := done + {k};
    }
    AllKeys(actualKeys, src.Keys);
    assert Only(src, src.Keys) == src;
  }

  /** The two map regimes, chosen by the kind of the map's values. */
  function Transformed<V>(dst: map<string, V>, src: map<string, V>, elem: ElemKind, fill: (V, V) -> V): map<string, V> {
    if elem.StructElem? then UnionWith(dst, src, fill) else dst + src
  }

  function Only<V>(m: map<string, V>, keys: set<string>): map<string, V> {
    map k | k in m && k in keys :: m[k]
  }

  lemma TransformNothing<V>(dst: map<string, V>, src: map<string, V>, elem: ElemKind, fill: (V, V) -> V)
    ensures Transformed(dst, Only(src, {}), elem, fill) == dst
  {
    assert Only(src, {}) == map[];
  }

  lemma TransformStep<V>(
    dst: map<string, V>, src: map<string, V>, done: set<string>, k: string, elem: ElemKind, fill: (V, V) -> V)
    requires k in src && k !in done
    ensures var before := Transformed(dst, Only(src, done), elem, fill);
      && (k in before <==> k in dst)
      && Transformed(dst, Only(src, done + {k}), elem, fill)
         == before[k := if k in before && elem.StructElem? then fill(before[k], src[k]) else src[k]]
  {
    var before := Transformed(dst, Only(src, done), elem, fill);
    var after := Transformed(dst, Only(src, done + {k}), elem, fill);
    assert after.Keys == before.Keys + {k};
    forall j | j in after && j != k ensures j in before && after[j] == before[j] {
    }
  }

  function MergeSpec(d: Spec, s: Spec): Spec {
    Spec(
      FillPtr(d.base, s.base, ""), FillImage(d.image, s.image),
      MergeStringMap(d.nodeSelector, s.nodeSelector), FillPtr(d.useNvidia, s.useNvidia, false),
      FillPtr(d.replicas, s.replicas, 0), FillOpaque(d.resources, s.resources),
      MergeStringMap(d.envs, s.envs), FillPtr(d.secretStoreRef, s.secretStoreRef, ""),
      MergeStructMap(d.sourcedEnvs, s.sourcedEnvs, FillSourcedEnv), FillPtr(d.serviceType, s.serviceType, ""),
      MergeStructMap(d.routes, s.routes, FillRoute), FillHomePage(d.homepage, s.homepage),
      MergeStructMap(d.volumes, s.volumes, FillVolume), FillBackup(d.backup, s.backup),
      FillOpaque(d.selector, s.selector), FillOpaque(d.livenessProbe, s.livenessProbe),
      FillOpaque(d.readinessProbe, s.readinessProbe), FillOpaque(d.startupProbe, s.startupProbe),
      FillPtr(d.tailscaleName, s.tailscaleName, ""),
      FillSlice(d.command, s.command), FillSlice(d.args, s.args),
      MergeStructMap(d.configs, s.configs, FillConfig))
  }

  function Merge(d: AppBundle, s: AppBundle): AppBundle {
    AppBundle(
      FillString(d.kind, s.kind), FillString(d.name, s.name), FillString(d.namespace, s.namespace),
      MergeStringMap(d.labels, s.labels), MergeStringMap(d.annotations, s.annotations),
      MergeSpec(d.spec, s.spec))
  }

  // ----- The merge is associative -----

  ghost predicate Associative<V(!new)>(fill: (V, V) -> V) {
    forall a, b, c :: fill(fill(a, b), c) == fill(a, fill(b, c))
  }

  lemma UnionWithAssociative<V(!new)>(
    a: map<string, V>, b: map<string, V>, c: map<string, V>, fill: (V, V) -> V)
    requires Associative(fill)
    ensures UnionWith(UnionWith(a, b, fill), c, fill) == UnionWith(a, UnionWith(b, c, fill), fill)
  {
    var l, r := UnionWith(UnionWith(a, b, fill), c, fill), UnionWith(a, UnionWith(b, c, fill), fill);
    assert l.Keys == r.Keys;
    forall k | k in l ensures l[k] == r[k] {
    }
  }

  lemma MergeStructMapAssociative<V(!new)>(
    a: Option<map<string, V>>, b: Option<map<string, V>>, c: Option<map<string, V>>, fill: (V, V) -> V)
    requires Associative(fill)
    ensures MergeStructMap(MergeStructMap(a, b, fill), c, fill) == MergeStructMap(a, MergeStructMap(b, c, fill), fill)
  {
    if a.Some? && b.Some? && c.Some? {
      UnionWithAssociative(a.value, b.value, c.value, fill);
    }
  }

  lemma FillsAssociative()
    ensures Associative(FillVolume) && Associative(FillConfig)
    ensures Associative(FillSourcedEnv) && Associative(FillRoute)
  {
    forall a, b, c ensures FillConfig(FillConfig(a, b), c) == FillConfig(a, FillConfig(b, c)) {
      FillStringMapAssociative(a.secrets, b.secrets, c.secrets);
    }
  }

  lemma FillStringMapAssociative(a: map<string, string>, b: map<string, string>, c: map<string, string>)
    ensures FillStringMap(FillStringMap(a, b), c) == FillStringMap(a, FillStringMap(b, c))
  {
    assert FillStringMap(FillStringMap(a, b), c).Keys == FillStringMap(a, FillStringMap(b, c)).Keys;
  }

  lemma MergeStringMapAssociative(
    a: Option<map<string, string>>, b: Option<map<string, string>>, c: Option<map<string, string>>)
    ensures MergeStringMap(MergeStringMap(a, b), c) == MergeStringMap(a, MergeStringMap(b, c))
  {
    if a.Some? && b.Some? && c.Some? {
      assert (a.value + b.value) + c.value == a.value + (b.value + c.value);
    }
  }

  lemma StructPtrsAssociative(a: Spec, b: Spec, c: Spec)
    ensures FillImage(FillImage(a.image, b.image), c.image) == FillImage(a.image, FillImage(b.image, c.image))
    ensures FillHomePage(FillHomePage(a.homepage, b.homepage), c.homepage)
         == FillHomePage(a.homepage, FillHomePage(b.homepage, c.homepage))
    ensures FillBackup(FillBackup(a.backup, b.backup), c.backup) == FillBackup(a.backup, FillBackup(b.backup, c.backup))
  {
  }

  lemma SpecScalarsAssociative(a: Spec, b: Spec, c: Spec)
    ensures var l, r := MergeSpec(MergeSpec(a, b), c), MergeSpec(a, MergeSpec(b, c));
      && l.base == r.base && l.useNvidia == r.useNvidia && l.replicas == r.replicas
      && l.secretStoreRef == r.secretStoreRef && l.serviceType == r.serviceType && l.tailscaleName == r.tailscaleName
  {
  }

  lemma SpecOpaquesAssociative(a: Spec, b: Spec, c: Spec)
    ensures var l, r := MergeSpec(MergeSpec(a, b), c), MergeSpec(a, MergeSpec(b, c));
      && l.resources == r.resources && l.selector == r.selector && l.livenessProbe == r.livenessProbe
      && l.readinessProbe == r.readinessProbe && l.startupProbe == r.startupProbe
      && l.command == r.command && l.args == r.args
  {
  }

  lemma SpecStructsAssociative(a: Spec, b: Spec, c: Spec)
    ensures var l, r := MergeSpec(MergeSpec(a, b), c), MergeSpec(a, MergeSpec(b, c));
      && l.image == r.image && l.homepage == r.homepage && l.backup == r.backup
      && l.envs == r.envs && l.nodeSelector == r.nodeSelector
  {
    StructPtrsAssociative(a, b, c);
    MergeStringMapAssociative(a.envs, b.envs, c.envs);
    MergeStringMapAssociative(a.nodeSelector, b.nodeSelector, c.nodeSelector);
  }

  lemma SpecMapsAssociative(a: Spec, b: Spec, c: Spec)
    ensures var l, r := MergeSpec(MergeSpec(a, b), c), MergeSpec(a, MergeSpec(b, c));
      && l.sourcedEnvs == r.sourcedEnvs && l.routes == r.routes && l.volumes == r.volumes && l.configs == r.configs
  {
    FillsAssociative();
    MergeStructMapAssociative(a.sourcedEnvs, b.sourcedEnvs, c.sourcedEnvs, FillSourcedEnv);
    MergeStructMapAssociative(a.routes, b.routes, c.routes, FillRoute);
    MergeStructMapAssociative(a.volumes, b.volumes, c.volumes, FillVolume);
    MergeStructMapAssociative(a.configs, b.configs, c.configs, FillConfig);
  }

  lemma MergeSpecAssociative(a: Spec, b: Spec, c: Spec)
    ensures MergeSpec(MergeSpec(a, b), c) == MergeSpec(a, MergeSpec(b, c))
  {
    SpecScalarsAssociative(a, b, c);
    SpecOpaquesAssociative(a, b, c);
    SpecStructsAssociative(a, b, c);
    SpecMapsAssociative(a, b, c);
  }

  /** Merging left to right or flattening the bases first makes no difference. */
  lemma MergeAssociative(a: AppBundle, b: AppBundle, c: AppBundle)
    ensures Merge(Merge(a, b), c) == Merge(a, Merge(b, c))
  {
    MergeSpecAssociative(a.spec, b.spec, c.spec);
    MergeStringMapAssociative(a.labels, b.labels, c.labels);
    MergeStringMapAssociative(a.annotations, b.annotations, c.annotations);
  }

  // ----- The merge is idempotent and has a unit -----

  const EMPTY_SPEC := Spec(
    None, None, None, None, None, None, None, None, None, None, None,
    None, None, None, None, None, None, None, None, [], [], None)

  const EMPTY_BUNDLE := AppBundle("", "", "", None, None, EMPTY_SPEC)

  lemma MergeEmpty(a: AppBundle)
    ensures Merge(a, EMPTY_BUNDLE) == a
  {
  }

  ghost predicate Idempotent<V(!new)>(fill: (V, V) -> V) {
    forall a :: fill(a, a) == a
  }

  lemma MergeStructMapIdempotent<V(!new)>(m: Option<map<string, V>>, fill: (V, V) -> V)
    requires Idempotent(fill)
    ensures MergeStructMap(m, m, fill) == m
  {
    if m.Some? {
      assert UnionWith(m.value, m.value, fill) == m.value;
    }
  }

  lemma FillsIdempotent()
    ensures Idempotent(FillVolume) && Idempotent(FillConfig)
    ensures Idempotent(FillSourcedEnv) && Idempotent(FillRoute)
  {
    forall c ensures FillConfig(c, c) == c {
      assert FillStringMap(c.secrets, c.secrets) == c.secrets;
    }
  }

  lemma MergeIdempotent(a: AppBundle)
    ensures Merge(a, a) == a
  {
    FillsIdempotent();
    MergeStructMapIdempotent(a.spec.sourcedEnvs, FillSourcedEnv);
    MergeStructMapIdempotent(a.spec.routes, FillRoute);
    MergeStructMapIdempotent(a.spec.volumes, FillVolume);
    MergeStructMapIdempotent(a.spec.configs, FillConfig);
    assert forall m: map<string, string> :: m + m == m;
  }

  // ----- Walking a chain of bases -----

  /** The bases whose Get succeeds, by name. */
  type Store = map<string, AppBundleBase>

  /**
   The bases a walk starting at next merges: it stops at a base without a link
   or at the first missing base, in both cases without an error.  None is a walk
   that comes back to a base it has already merged; seen holds those names.
   */
  function Chain(store: Store, next: Option<string>, seen: set<string>): (bases: Option<seq<AppBundleBase>>)
    decreases store.Keys - seen
  {
    if next == None || next.value !in store then Some([])
    else if next.value in seen then None
    else
      assert next.value in store.Keys - seen;
      var rest := Chain(store, store[next.value].spec.base, seen + {next.value});
      if rest == None then None else Some([store[next.value]] + rest.value)
  }

  function MergeChain(ab: AppBundle, bases: seq<AppBundleBase>): AppBundle
    decreases |bases|
  {
    if bases == [] then ab else MergeChain(Merge(ab, bases[0].ToAppBundle()), bases[1..])
  }

  /** The whole chain as one bundle. */
  function Flatten(bases: seq<AppBundleBase>): AppBundle {
    if bases == [] then EMPTY_BUNDLE else Merge(bases[0].ToAppBundle(), Flatten(bases[1..]))
  }

  /** Walking the chain equals one merge with the pre-flattened chain. */
  lemma {:induction false} ChainIsOneMerge(ab: AppBundle, bases: seq<AppBundleBase>)
    ensures MergeChain(ab, bases) == Merge(ab, Flatten(bases))
    decreases |bases|
  {
    if bases == [] {
      MergeEmpty(ab);
    } else {
      ChainIsOneMerge(Merge(ab, bases[0].ToAppBundle()), bases[1..]);
      MergeAssociative(ab, bases[0].ToAppBundle(), Flatten(bases[1..]));
    }
  }

  /** Resolving a resolved bundle against the same chain changes nothing. */
  lemma ResolutionIdempotent(ab: AppBundle, bases: seq<AppBundleBase>)
    ensures MergeChain(MergeChain(ab, bases), bases) == MergeChain(ab, bases)
  {
    var flat := Flatten(bases);
    ChainIsOneMerge(ab, bases);
    ChainIsOneMerge(Merge(ab, flat), bases);
    MergeAssociative(ab, flat, flat);
    MergeIdempotent(flat);
  }

  /** The second resolution does move string-valued maps on the way before it restores them. */
  lemma IdempotentOnlyAtTheEnd()
    ensures exists ab, near, far ::
      var resolved := MergeChain(ab, [near, far]);
      && Merge(resolved, near.ToAppBundle()).spec.envs != resolved.spec.envs
      && MergeChain(resolved, [near, far]) == resolved
  {
    var near := AppBundleBase("near", None, None, EMPTY_SPEC.(envs := Some(map["A" := "near"])));
    var far := AppBundleBase("far", None, None, EMPTY_SPEC.(envs := Some(map["A" := "far"])));
    var ab := EMPTY_BUNDLE;
    var resolved := MergeChain(ab, [near, far]);
    ResolutionIdempotent(ab, [near, far]);
    ChainIsOneMerge(ab, [near, far]);
    assert [near, far][1..] == [far] && [far][1..] == [];
    assert Flatten([far]) == Merge(far.ToAppBundle(), EMPTY_BUNDLE);
    MergeEmpty(far.ToAppBundle());
    assert Flatten([near, far]).spec.envs == Some(map["A" := "near"] + map["A" := "far"]);
    assert resolved.spec.envs.value["A"] == "far";
    assert Merge(resolved, near.ToAppBundle()).spec.envs.value["A"] == "near";
  }

  /** Identity survives resolution: mutex names, cache IDs and owner references are those of the bundle. */
  lemma {:induction false} ResolutionKeepsIdentity(ab: AppBundle, bases: seq<AppBundleBase>)
    requires ab.name != "" && ab.namespace != "" && ab.spec.base.Some? && ab.spec.base.value != ""
    ensures var resolved := MergeChain(ab, bases);
      && resolved.name == ab.name && resolved.namespace == ab.namespace && resolved.spec.base == ab.spec.base
    decreases |bases|
  {
    if bases != [] {
      ResolutionKeepsIdentity(Merge(ab, bases[0].ToAppBundle()), bases[1..]);
    }
  }

  // ----- Termination of the walk -----

  /** The base a walk visits after n links, or None when it has stopped by then. */
  function Visited(store: Store, next: Option<string>, n: nat): Option<AppBundleBase>
    decreases n
  {
    if next == None || next.value !in store then None
    else if n == 0 then Some(store[next.value])
    else Visited(store, store[next.value].spec.base, n - 1)
  }

  /** A walk stops exactly when it repeats no name, and the bases it merged are those visited before the stop. */
  lemma WalkStopsIffNoRepeat(store: Store, next: Option<string>)
    ensures Chain(store, next, {}) == None <==> forall n :: Visited(store, next, n).Some?
    ensures Chain(store, next, {}).Some? ==>
      var bases := Chain(store, next, {}).value;
      && Visited(store, next, |bases|) == None
      && forall n :: 0 <= n < |bases| ==> Visited(store, next, n) == Some(bases[n])
  {
    if Chain(store, next, {}) == None {
      var loop := RepeatClosesALoop(store, next, {});
      forall n ensures Visited(store, next, n).Some? {
        LoopNeverStops(store, next, loop, n);
      }
    } else {
      ChainIsVisited(store, next, {});
    }
  }

  lemma {:induction false} ChainIsVisited(store: Store, next: Option<string>, seen: set<string>)
    requires Chain(store, next, seen).Some?
    ensures var bases := Chain(store, next, seen).value;
      && Visited(store, next, |bases|) == None
      && forall n :: 0 <= n < |bases| ==> Visited(store, next, n) == Some(bases[n])
    decreases store.Keys - seen
  {
    if next.Some? && next.value in store {
      assert next.value in store.Keys - seen;
      ChainIsVisited(store, store[next.value].spec.base, seen + {next.value});
    }
  }

  /** Every base of the set links to a base of the set. */
  predicate Closed(store: Store, loop: set<string>) {
    forall name :: name in loop ==>
      name in store && store[name].spec.base.Some? && store[name].spec.base.value in loop
  }

  lemma {:induction false} RepeatClosesALoop(store: Store, next: Option<string>, seen: set<string>)
    returns (path: set<string>)
    requires Chain(store, next, seen) == None
    ensures next.Some? && next.value in path + seen
    ensures forall name :: name in path ==>
      name in store && store[name].spec.base.Some? && store[name].spec.base.value in path + seen
    decreases store.Keys - seen
  {
    if next.value in seen {
      path := {};
    } else {
      assert next.value in store.Keys - seen;
      path := RepeatClosesALoop(store, store[next.value].spec.base, seen + {next.value});
      path := path + {next.value};
    }
  }

  lemma {:induction false} LoopNeverStops(store: Store, next: Option<string>, loop: set<string>, n: nat)
    requires Closed(store, loop) && next.Some? && next.value in loop
    ensures Visited(store, next, n).Some?
    decreases n
  {
    if n > 0 {
      LoopNeverStops(store, store[next.value].spec.base, loop, n - 1);
    }
  }

  const MUTUAL_BASES: Store := map[
    "a" := AppBundleBase("a", None, None, EMPTY_SPEC.(base := Some("b"))),
    "b" := AppBundleBase("b", None, None, EMPTY_SPEC.(base := Some("a")))]

  /** Two bases that name each other: the recursion has no end. */
  lemma MutualBasesNeverResolve(n: nat)
    ensures Visited(MUTUAL_BASES, Some("a"), n).Some?
  {
    assert Closed(MUTUAL_BASES, {"a", "b"});
    LoopNeverStops(MUTUAL_BASES, Some("a"), {"a", "b"}, n);
  }

  // ----- The in-place resolution -----

  /** The bundle a reconcile pass has read and resolves in place. */
  class ResolvableBundle {
    var bundle: AppBundle

    constructor (ab: AppBundle)
      ensures bundle == ab
    {
      bundle := ab;
    }

    /** mergo.Merge of one base, with the map transformer. */
    method MergeBase(abb: AppBundleBase)
      modifies this
      ensures bundle == Merge(old(bundle), abb.ToAppBundle())
    {
      var src := abb.ToAppBundle();
      var labels := MergeStrings(bundle.labels, src.labels);
      var annotations := MergeStrings(bundle.annotations, src.annotations);
      var nodeSelector := MergeStrings(bundle.spec.nodeSelector, src.spec.nodeSelector);
      var envs := MergeStrings(bundle.spec.envs, src.spec.envs);
      var sourcedEnvs := MergeStructs(bundle.spec.sourcedEnvs, src.spec.sourcedEnvs, FillSourcedEnv);
      var routes := MergeStructs(bundle.spec.routes, src.spec.routes, FillRoute);
      var volumes := MergeStructs(bundle.spec.volumes, src.spec.volumes, FillVolume);
      var configs := MergeStructs(bundle.spec.configs, src.spec.configs, FillConfig);
      bundle := Merge(bundle, src).(
        labels := labels,
        annotations := annotations,
        spec := MergeSpec(bundle.spec, src.spec).(
          nodeSelector := nodeSelector, envs := envs, sourcedEnvs := sourcedEnvs,
          routes := routes, volumes := volumes, configs := configs));
    }

    /**
     ResolveAppBundleBase: merge, follow the link, recurse.  A link whose base
     cannot be read returns the earlier nil error, so the walk ends in success.
     */
    method ResolveAppBundleBase(store: Store, abb: AppBundleBase, ghost seen: set<string>)
      requires Chain(store, abb.spec.base, seen).Some?
      modifies this
      ensures bundle == MergeChain(old(bundle), [abb] + Chain(store, abb.spec.base, seen).value)
      decreases store.Keys - seen
    {
      var followUpAbb := abb.spec.base;
      ghost var before := bundle;
      MergeBase(abb);
      ghost var rest := Chain(store, abb.spec.base, seen).value;
      assert ([abb] + rest)[1..] == rest;
      if followUpAbb == None {
        return;
      }
      if followUpAbb.value !in store {
        return;
      }
      assert followUpAbb.value in store.Keys - seen;
      assert Chain(store, store[followUpAbb.value].spec.base, seen + {followUpAbb.value}).Some?;
      ResolveAppBundleBase(store, store[followUpAbb.value], seen + {followUpAbb.value});
    }

    /** The base step of the bundle reconcile: here, and only here, a missing base is an error. */
    method ResolveForReconcile(store: Store) returns (ok: bool)
      requires Chain(store, bundle.spec.base, {}).Some?
      modifies this
      ensures ok <==> (old(bundle).spec.base == None || old(bundle).spec.base.value in store)
      ensures ok ==> bundle == MergeChain(old(bundle), Chain(store, old(bundle).spec.base, {}).value)
      ensures !ok ==> bundle == old(bundle)
    {
      if bundle.spec.base == None {
        return true;
      }
      var name := bundle.spec.base.value;
      if name !in store {
        return false;
      }
      assert {} + {name} == {name};
      assert Chain(store, store[name].spec.base, {name}).Some?;
      ResolveAppBundleBase(store, store[name], {name});
      return true;
    }
  }

  method MergeStrings(dst: Option<map<string, string>>, src: Option<map<string, string>>)
    returns (out: Option<map<string, string>>)
    ensures out == MergeStringMap(dst, src)
  {
    if dst == None {
      return src;
    }
    if src == None {
      return dst;
    }
    var merged := TransformMap(dst.value, src.value, StringElem, FillString);
    return Some(merged);
  }

  method MergeStructs<V>(dst: Option<map<string, V>>, src: Option<map<string, V>>, fill: (V, V) -> V)
    returns (out: Option<map<string, V>>)
    ensures out == MergeStructMap(dst, src, fill)
  {
    if dst.None? {
      return src;
    }
    if src.None? {
      return dst;
    }
    var merged := TransformMap(dst.value, src.value, StructElem, fill);
    return Some(merged);
  }
}
