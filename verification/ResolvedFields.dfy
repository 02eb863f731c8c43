/**
 What a resolved bundle contains, field by field.

 Walking a chain of bases folds every field in walking order, bundle first.  Three
 regimes differ in how two values meet: plain fields, and fields behind struct
 pointers, take the first value that is set; entries of string-valued maps take the
 last; entries of struct-valued maps are themselves filled field by field.
 */
module ResolvedFields {
  import opened Options
  import opened Bundle
  import opened BaseInheritance

  // ----- Folding along a chain -----

  function Fold<W>(fill: (W, W) -> W, w: W, ws: seq<W>): W
    decreases |ws|
  {
    if ws == [] then w else Fold(fill, fill(w, ws[0]), ws[1..])
  }

  /** fill combines the field proj of two structs with g. */
  ghost predicate FillsField<V(!new), W>(fill: (V, V) -> V, proj: V -> W, g: (W, W) -> W) {
    forall x, y :: proj(fill(x, y)) == g(proj(x), proj(y))
  }

  function Project<V, W>(vs: seq<V>, proj: V -> W): seq<W> {
    if vs == [] then [] else [proj(vs[0])] + Project(vs[1..], proj)
  }

  function SpecsOf(bases: seq<AppBundleBase>): seq<Spec> {
    if bases == [] then [] else [bases[0].spec] + SpecsOf(bases[1..])
  }

  /** One merge combines the field of two specs with fill. */
  ghost predicate MergesBy<W>(get: Spec -> W, fill: (W, W) -> W) {
    FillsField(MergeSpec, get, fill)
  }

  /** A base hands the field on as it is. */
  ghost predicate HandedOn<W>(get: Spec -> W) {
    forall abb: AppBundleBase :: get(abb.ToAppBundle().spec) == get(abb.spec)
  }

  lemma {:induction false} ResolvedIsFold<W>(
    ab: AppBundle, bases: seq<AppBundleBase>, get: Spec -> W, fill: (W, W) -> W)
    requires MergesBy(get, fill) && HandedOn(get)
    ensures get(MergeChain(ab, bases).spec) == Fold(fill, get(ab.spec), Project(SpecsOf(bases), get))
    decreases |bases|
  {
    if bases != [] {
      ResolvedIsFold(Merge(ab, bases[0].ToAppBundle()), bases[1..], get, fill);
      assert Project(SpecsOf(bases), get)[1..] == Project(SpecsOf(bases[1..]), get);
    }
  }

  /** The same for what a bundle has beside its spec; from reads it off a base. */
  lemma {:induction false} ResolvedMetaIsFold<W>(
    ab: AppBundle, bases: seq<AppBundleBase>, get: AppBundle -> W, from: AppBundleBase -> W, fill: (W, W) -> W)
    requires FillsField(Merge, get, fill)
    requires forall abb: AppBundleBase :: get(abb.ToAppBundle()) == from(abb)
    ensures get(MergeChain(ab, bases)) == Fold(fill, get(ab), Project(bases, from))
    decreases |bases|
  {
    if bases != [] {
      ResolvedMetaIsFold(Merge(ab, bases[0].ToAppBundle()), bases[1..], get, from, fill);
      assert Project(bases, from)[1..] == Project(bases[1..], from);
    }
  }

  // ----- First set value -----

  /** fill keeps a value that is set and otherwise takes the other one. */
  ghost predicate TakesFirst<W(!new)>(fill: (W, W) -> W, set_: W -> bool) {
    forall a, b :: (set_(a) ==> fill(a, b) == a)
      && (!set_(a) && set_(b) ==> fill(a, b) == b)
      && (!set_(a) && !set_(b) ==> !set_(fill(a, b)))
  }

  function FirstSet<W>(set_: W -> bool, values: seq<W>): Option<W> {
    if values == [] then None else if set_(values[0]) then Some(values[0]) else FirstSet(set_, values[1..])
  }

  /** r is the first of the values that is set, and unset when none is. */
  predicate IsFirstSet<W(==)>(r: W, set_: W -> bool, values: seq<W>) {
    if FirstSet(set_, values).Some? then r == FirstSet(set_, values).value else !set_(r)
  }

  lemma {:induction false} FoldTakesFirst<W(!new)>(fill: (W, W) -> W, set_: W -> bool, w: W, ws: seq<W>)
    requires TakesFirst(fill, set_)
    ensures IsFirstSet(Fold(fill, w, ws), set_, [w] + ws)
    decreases |ws|
  {
    assert ([w] + ws)[1..] == ws;
    if ws != [] {
      var next := fill(w, ws[0]);
      FoldTakesFirst(fill, set_, next, ws[1..]);
      assert ([next] + ws[1..])[1..] == ws[1..];
    }
  }

  /** The values of a field along a chain, bundle first. */
  function Seen<W>(ab: AppBundle, bases: seq<AppBundleBase>, get: Spec -> W): seq<W> {
    [get(ab.spec)] + Project(SpecsOf(bases), get)
  }

  /** A field that takes the first set value. */
  lemma ResolvedTakesFirst<W(!new)>(
    ab: AppBundle, bases: seq<AppBundleBase>, get: Spec -> W, fill: (W, W) -> W, set_: W -> bool)
    requires MergesBy(get, fill) && HandedOn(get) && TakesFirst(fill, set_)
    ensures IsFirstSet(get(MergeChain(ab, bases).spec), set_, Seen(ab, bases, get))
  {
    ResolvedIsFold(ab, bases, get, fill);
    FoldTakesFirst(fill, set_, get(ab.spec), Project(SpecsOf(bases), get));
  }

  function Pointer<T(==)>(zero: T): (Option<T>, Option<T>) -> Option<T> {
    (a: Option<T>, b: Option<T>) => FillPtr(a, b, zero)
  }

  function NonZero<T(==)>(zero: T): Option<T> -> bool {
    (v: Option<T>) => v.Some? && v.value != zero
  }

  lemma PointersTakeFirst<T(!new)>(zero: T)
    ensures TakesFirst(Pointer(zero), NonZero(zero))
  {
  }

  predicate NonEmpty<T(==)>(s: seq<T>) {
    s != []
  }

  predicate NonNil(o: Option<Opaque>) {
    o.Some?
  }

  lemma OthersTakeFirst()
    ensures TakesFirst(FillString, NonEmpty<char>)
    ensures TakesFirst(FillSlice, NonEmpty<string>)
    ensures TakesFirst(FillOpaque, NonNil)
  {
  }

  // ----- Entries of maps -----

  function Lookup<V>(m: Option<map<string, V>>, k: string): Option<V> {
    if k in Entries(m) then Some(Entries(m)[k]) else None
  }

  /** The definitions among the values seen along a chain, in walking order. */
  function Definitions<V>(values: seq<Option<V>>): seq<V> {
    if values == [] then []
    else (if values[0].Some? then [values[0].value] else []) + Definitions(values[1..])
  }

  function Overwrite<V>(a: Option<V>, b: Option<V>): Option<V> {
    if b.Some? then b else a
  }

  function EntryFill<V>(fill: (V, V) -> V): (Option<V>, Option<V>) -> Option<V> {
    (a: Option<V>, b: Option<V>) =>
      if a == None then b else if b == None then a else Some(fill(a.value, b.value))
  }

  function LastOf<V>(ds: seq<V>): Option<V> {
    if ds == [] then None else Some(ds[|ds| - 1])
  }

  function FoldOf<V>(fill: (V, V) -> V, ds: seq<V>): Option<V> {
    if ds == [] then None else Some(Fold(fill, ds[0], ds[1..]))
  }

  lemma DefinitionsCons<V>(v: Option<V>, vs: seq<Option<V>>)
    ensures Definitions([v] + vs) == (if v.Some? then [v.value] else []) + Definitions(vs)
  {
    assert ([v] + vs)[1..] == vs;
  }

  lemma {:induction false} FoldOverwrites<V>(v: Option<V>, vs: seq<Option<V>>)
    ensures Fold(Overwrite, v, vs) == LastOf(Definitions([v] + vs))
    decreases |vs|
  {
    DefinitionsCons(v, vs);
    if vs != [] {
      var next := Overwrite(v, vs[0]);
      FoldOverwrites(next, vs[1..]);
      DefinitionsCons(next, vs[1..]);
      assert vs == [vs[0]] + vs[1..];
      DefinitionsCons(vs[0], vs[1..]);
    }
  }

  lemma {:induction false} FoldFillsEntries<V>(fill: (V, V) -> V, v: Option<V>, vs: seq<Option<V>>)
    ensures Fold(EntryFill(fill), v, vs) == FoldOf(fill, Definitions([v] + vs))
    decreases |vs|
  {
    DefinitionsCons(v, vs);
    if vs != [] {
      var next := EntryFill(fill)(v, vs[0]);
      FoldFillsEntries(fill, next, vs[1..]);
      DefinitionsCons(next, vs[1..]);
      assert vs == [vs[0]] + vs[1..];
      DefinitionsCons(vs[0], vs[1..]);
      var rest := Definitions(vs[1..]);
      if v.Some? && vs[0].Some? {
        MergeFirstTwo(fill, v.value, vs[0].value, rest);
      } else if v.Some? {
        assert [v.value] + ([] + rest) == [v.value] + rest;
      } else {
        assert [] + Definitions(vs) == Definitions(vs);
      }
    }
  }

  lemma MergeFirstTwo<V>(fill: (V, V) -> V, x: V, y: V, rest: seq<V>)
    ensures FoldOf(fill, [x] + ([y] + rest)) == FoldOf(fill, [fill(x, y)] + rest)
  {
    var long, short := [x] + ([y] + rest), [fill(x, y)] + rest;
    assert long[1..] == [y] + rest && ([y] + rest)[1..] == rest && short[1..] == rest;
  }

  /** An entry of a string-valued map is there iff somebody defines it, and the last definition decides. */
  lemma ResolvedStringEntry(ab: AppBundle, bases: seq<AppBundleBase>, get: Spec -> Option<string>)
    requires MergesBy(get, Overwrite) && HandedOn(get)
    ensures get(MergeChain(ab, bases).spec) == LastOf(Defined(ab, bases, get))
  {
    ResolvedIsFold(ab, bases, get, Overwrite);
    FoldOverwrites(get(ab.spec), Project(SpecsOf(bases), get));
  }

  lemma ResolvedMetaEntry(
    ab: AppBundle, bases: seq<AppBundleBase>, get: AppBundle -> Option<string>, from: AppBundleBase -> Option<string>)
    requires FillsField(Merge, get, Overwrite)
    requires forall abb: AppBundleBase :: get(abb.ToAppBundle()) == from(abb)
    ensures get(MergeChain(ab, bases)) == LastOf(Definitions([get(ab)] + Project(bases, from)))
  {
    ResolvedMetaIsFold(ab, bases, get, from, Overwrite);
    FoldOverwrites(get(ab), Project(bases, from));
  }

  /** An entry of a struct-valued map is there iff somebody defines it, and all definitions are
      filled in walking order. */
  lemma ResolvedStructEntry<V>(ab: AppBundle, bases: seq<AppBundleBase>, get: Spec -> Option<V>, fill: (V, V) -> V)
    requires MergesBy(get, EntryFill(fill)) && HandedOn(get)
    ensures get(MergeChain(ab, bases).spec) == FoldOf(fill, Defined(ab, bases, get))
  {
    ResolvedIsFold(ab, bases, get, EntryFill(fill));
    FoldFillsEntries(fill, get(ab.spec), Project(SpecsOf(bases), get));
  }

  // ----- Fields of entries -----

  /** A field of filled definitions is the fold of that field over them. */
  lemma {:induction false} FieldOfFold<V(!new), W>(fill: (V, V) -> V, proj: V -> W, g: (W, W) -> W, v: V, vs: seq<V>)
    requires FillsField(fill, proj, g)
    ensures proj(Fold(fill, v, vs)) == Fold(g, proj(v), Project(vs, proj))
    decreases |vs|
  {
    if vs != [] {
      FieldOfFold(fill, proj, g, fill(v, vs[0]), vs[1..]);
      assert Project(vs, proj)[1..] == Project(vs[1..], proj);
    }
  }

  // ----- The maps of a bundle -----

  lemma StringMapLookup(a: Option<map<string, string>>, b: Option<map<string, string>>, k: string)
    ensures Lookup(MergeStringMap(a, b), k) == Overwrite(Lookup(a, k), Lookup(b, k))
  {
  }

  lemma StructMapLookup<V>(a: Option<map<string, V>>, b: Option<map<string, V>>, fill: (V, V) -> V, k: string)
    ensures Lookup(MergeStructMap(a, b, fill), k) == EntryFill(fill)(Lookup(a, k), Lookup(b, k))
  {
  }

  /** All four string-valued maps: labels, annotations, node selector and environment. */
  lemma StringMapsMerge(k: string)
    ensures FillsField(Merge, (x: AppBundle) => Lookup(x.labels, k), Overwrite)
    ensures FillsField(Merge, (x: AppBundle) => Lookup(x.annotations, k), Overwrite)
    ensures MergesBy((s: Spec) => Lookup(s.nodeSelector, k), Overwrite)
    ensures MergesBy((s: Spec) => Lookup(s.envs, k), Overwrite)
  {
    forall a: AppBundle, b: AppBundle
      ensures Lookup(Merge(a, b).labels, k) == Overwrite(Lookup(a.labels, k), Lookup(b.labels, k))
      ensures Lookup(Merge(a, b).annotations, k) == Overwrite(Lookup(a.annotations, k), Lookup(b.annotations, k))
    {
      StringMapLookup(a.labels, b.labels, k);
      StringMapLookup(a.annotations, b.annotations, k);
    }
    forall a: Spec, b: Spec
      ensures Lookup(MergeSpec(a, b).nodeSelector, k) ==
        Overwrite(Lookup(a.nodeSelector, k), Lookup(b.nodeSelector, k))
      ensures Lookup(MergeSpec(a, b).envs, k) == Overwrite(Lookup(a.envs, k), Lookup(b.envs, k))
    {
      StringMapLookup(a.nodeSelector, b.nodeSelector, k);
      StringMapLookup(a.envs, b.envs, k);
    }
  }

  /** All four struct-valued maps: sourced environment, routes, volumes and configs. */
  lemma StructMapsMerge(k: string)
    ensures MergesBy((s: Spec) => Lookup(s.sourcedEnvs, k), EntryFill(FillSourcedEnv))
    ensures MergesBy((s: Spec) => Lookup(s.routes, k), EntryFill(FillRoute))
    ensures MergesBy((s: Spec) => Lookup(s.volumes, k), EntryFill(FillVolume))
    ensures MergesBy((s: Spec) => Lookup(s.configs, k), EntryFill(FillConfig))
  {
    forall a: Spec, b: Spec
      ensures Lookup(MergeSpec(a, b).sourcedEnvs, k)
           == EntryFill(FillSourcedEnv)(Lookup(a.sourcedEnvs, k), Lookup(b.sourcedEnvs, k))
      ensures Lookup(MergeSpec(a, b).routes, k) == EntryFill(FillRoute)(Lookup(a.routes, k), Lookup(b.routes, k))
      ensures Lookup(MergeSpec(a, b).volumes, k) == EntryFill(FillVolume)(Lookup(a.volumes, k), Lookup(b.volumes, k))
      ensures Lookup(MergeSpec(a, b).configs, k) == EntryFill(FillConfig)(Lookup(a.configs, k), Lookup(b.configs, k))
    {
      StructMapLookup(a.sourcedEnvs, b.sourcedEnvs, FillSourcedEnv, k);
      StructMapLookup(a.routes, b.routes, FillRoute, k);
      StructMapLookup(a.volumes, b.volumes, FillVolume, k);
      StructMapLookup(a.configs, b.configs, FillConfig, k);
    }
  }

  // ----- The resolved maps -----

  /** The definitions of an entry along a chain, bundle first. */
  function Defined<V>(ab: AppBundle, bases: seq<AppBundleBase>, get: Spec -> Option<V>): seq<V> {
    Definitions(Seen(ab, bases, get))
  }

  /** String-valued maps: a key is there iff it is defined along the chain, and its last definition decides. */
  lemma ResolvedStringMaps(ab: AppBundle, bases: seq<AppBundleBase>, k: string)
    ensures var r := MergeChain(ab, bases);
      && Lookup(r.labels, k) == LastOf(Definitions(
           [Lookup(ab.labels, k)] + Project(bases, (abb: AppBundleBase) => Lookup(abb.labels, k))))
      && Lookup(r.annotations, k) == LastOf(Definitions(
           [Lookup(ab.annotations, k)] + Project(bases, (abb: AppBundleBase) => Lookup(abb.annotations, k))))
      && Lookup(r.spec.nodeSelector, k) == LastOf(Defined(ab, bases, (s: Spec) => Lookup(s.nodeSelector, k)))
      && Lookup(r.spec.envs, k) == LastOf(Defined(ab, bases, (s: Spec) => Lookup(s.envs, k)))
  {
    StringMapsMerge(k);
    ResolvedMetaEntry(
      ab, bases, (x: AppBundle) => Lookup(x.labels, k), (abb: AppBundleBase) => Lookup(abb.labels, k));
    ResolvedMetaEntry(
      ab, bases, (x: AppBundle) => Lookup(x.annotations, k), (abb: AppBundleBase) => Lookup(abb.annotations, k));
    ResolvedStringEntry(ab, bases, (s: Spec) => Lookup(s.nodeSelector, k));
    ResolvedStringEntry(ab, bases, (s: Spec) => Lookup(s.envs, k));
  }

  /** Struct-valued maps: a key is there iff it is defined along the chain, and its definitions are
      filled in walking order. */
  lemma ResolvedStructMaps(ab: AppBundle, bases: seq<AppBundleBase>, k: string)
    ensures var r := MergeChain(ab, bases);
      && Lookup(r.spec.sourcedEnvs, k)
         == FoldOf(FillSourcedEnv, Defined(ab, bases, (s: Spec) => Lookup(s.sourcedEnvs, k)))
      && Lookup(r.spec.routes, k) == FoldOf(FillRoute, Defined(ab, bases, (s: Spec) => Lookup(s.routes, k)))
      && Lookup(r.spec.volumes, k) ==
        FoldOf(FillVolume, Defined(ab, bases, (s: Spec) => Lookup(s.volumes, k)))
      && Lookup(r.spec.configs, k) ==
        FoldOf(FillConfig, Defined(ab, bases, (s: Spec) => Lookup(s.configs, k)))
  {
    StructMapsMerge(k);
    ResolvedStructEntry(ab, bases, (s: Spec) => Lookup(s.sourcedEnvs, k), FillSourcedEnv);
    ResolvedStructEntry(ab, bases, (s: Spec) => Lookup(s.routes, k), FillRoute);
    ResolvedStructEntry(ab, bases, (s: Spec) => Lookup(s.volumes, k), FillVolume);
    ResolvedStructEntry(ab, bases, (s: Spec) => Lookup(s.configs, k), FillConfig);
  }

  // ----- Plain fields of the resolved bundle -----

  lemma PlainFieldsMerge()
    ensures MergesBy((s: Spec) => s.useNvidia, Pointer(false))
    ensures MergesBy((s: Spec) => s.replicas, Pointer(0))
    ensures MergesBy((s: Spec) => s.secretStoreRef, Pointer(""))
    ensures MergesBy((s: Spec) => s.serviceType, Pointer(""))
    ensures MergesBy((s: Spec) => s.command, FillSlice)
    ensures MergesBy((s: Spec) => s.args, FillSlice)
  {
  }

  /** Identity: the name is the first that is not empty; namespace, base and tailscale name stay the bundle's own. */
  lemma {:induction false} ResolvedIdentity(ab: AppBundle, bases: seq<AppBundleBase>)
    ensures var r := MergeChain(ab, bases);
      && IsFirstSet(r.name, NonEmpty<char>, [ab.name] + Project(bases, (abb: AppBundleBase) => abb.name))
      && r.namespace == ab.namespace && r.spec.base == ab.spec.base && r.spec.tailscaleName == ab.spec.tailscaleName
      && r.kind == if ab.kind == "" && bases != [] then "AppBundle" else ab.kind
    decreases |bases|
  {
    OthersTakeFirst();
    ResolvedMetaIsFold(ab, bases, (x: AppBundle) => x.name, (abb: AppBundleBase) => abb.name, FillString);
    FoldTakesFirst(FillString, NonEmpty<char>, ab.name, Project(bases, (abb: AppBundleBase) => abb.name));
    if bases != [] {
      ResolvedIdentity(Merge(ab, bases[0].ToAppBundle()), bases[1..]);
    }
  }

  /** Scalars, pointers and slices: the first set value of the bundle and its bases in walking order. */
  lemma ResolvedPlainFields(ab: AppBundle, bases: seq<AppBundleBase>)
    ensures var r := MergeChain(ab, bases);
      && IsFirstSet(r.spec.useNvidia, NonZero(false), Seen(ab, bases, (s: Spec) => s.useNvidia))
      && IsFirstSet(r.spec.replicas, NonZero(0), Seen(ab, bases, (s: Spec) => s.replicas))
      && IsFirstSet(r.spec.secretStoreRef, NonZero(""), Seen(ab, bases, (s: Spec) => s.secretStoreRef))
      && IsFirstSet(r.spec.serviceType, NonZero(""), Seen(ab, bases, (s: Spec) => s.serviceType))
      && IsFirstSet(r.spec.command, NonEmpty<string>, Seen(ab, bases, (s: Spec) => s.command))
      && IsFirstSet(r.spec.args, NonEmpty<string>, Seen(ab, bases, (s: Spec) => s.args))
  {
    PlainFieldsMerge();
    OthersTakeFirst();
    PointersTakeFirst("");
    PointersTakeFirst(false);
    PointersTakeFirst(0);
    ResolvedTakesFirst(ab, bases, (s: Spec) => s.useNvidia, Pointer(false), NonZero(false));
    ResolvedTakesFirst(ab, bases, (s: Spec) => s.replicas, Pointer(0), NonZero(0));
    ResolvedTakesFirst(ab, bases, (s: Spec) => s.secretStoreRef, Pointer(""), NonZero(""));
    ResolvedTakesFirst(ab, bases, (s: Spec) => s.serviceType, Pointer(""), NonZero(""));
    ResolvedTakesFirst(ab, bases, (s: Spec) => s.command, FillSlice, NonEmpty<string>);
    ResolvedTakesFirst(ab, bases, (s: Spec) => s.args, FillSlice, NonEmpty<string>);
  }

  lemma OpaqueFieldsMerge()
    ensures MergesBy((s: Spec) => s.resources, FillOpaque)
    ensures MergesBy((s: Spec) => s.selector, FillOpaque)
    ensures MergesBy((s: Spec) => s.livenessProbe, FillOpaque)
    ensures MergesBy((s: Spec) => s.readinessProbe, FillOpaque)
    ensures MergesBy((s: Spec) => s.startupProbe, FillOpaque)
  {
  }

  /** Resources, selector and probes: the first that is not nil. */
  lemma ResolvedOpaqueFields(ab: AppBundle, bases: seq<AppBundleBase>)
    ensures var r := MergeChain(ab, bases);
      && IsFirstSet(r.spec.resources, NonNil, Seen(ab, bases, (s: Spec) => s.resources))
      && IsFirstSet(r.spec.selector, NonNil, Seen(ab, bases, (s: Spec) => s.selector))
      && IsFirstSet(r.spec.livenessProbe, NonNil, Seen(ab, bases, (s: Spec) => s.livenessProbe))
      && IsFirstSet(r.spec.readinessProbe, NonNil, Seen(ab, bases, (s: Spec) => s.readinessProbe))
      && IsFirstSet(r.spec.startupProbe, NonNil, Seen(ab, bases, (s: Spec) => s.startupProbe))
  {
    OpaqueFieldsMerge();
    OthersTakeFirst();
    ResolvedTakesFirst(ab, bases, (s: Spec) => s.resources, FillOpaque, NonNil);
    ResolvedTakesFirst(ab, bases, (s: Spec) => s.selector, FillOpaque, NonNil);
    ResolvedTakesFirst(ab, bases, (s: Spec) => s.livenessProbe, FillOpaque, NonNil);
    ResolvedTakesFirst(ab, bases, (s: Spec) => s.readinessProbe, FillOpaque, NonNil);
    ResolvedTakesFirst(ab, bases, (s: Spec) => s.startupProbe, FillOpaque, NonNil);
  }

  // ----- Fields behind struct pointers, nil when the struct is -----

  function Repository(o: Option<Image>): Option<string> {
    if o == None then None else o.value.repository
  }

  function Tag(o: Option<Image>): Option<string> {
    if o == None then None else o.value.tag
  }

  function PullPolicy(o: Option<Image>): Option<string> {
    if o == None then None else o.value.pullPolicy
  }

  lemma ImageFieldsMerge()
    ensures MergesBy((s: Spec) => Repository(s.image), Pointer(""))
    ensures MergesBy((s: Spec) => Tag(s.image), Pointer(""))
    ensures MergesBy((s: Spec) => PullPolicy(s.image), Pointer(""))
  {
    forall a: Spec, b: Spec
      ensures Repository(MergeSpec(a, b).image) == FillPtr(Repository(a.image), Repository(b.image), "")
      ensures Tag(MergeSpec(a, b).image) == FillPtr(Tag(a.image), Tag(b.image), "")
      ensures PullPolicy(MergeSpec(a, b).image) == FillPtr(PullPolicy(a.image), PullPolicy(b.image), "")
    {
      assert MergeSpec(a, b).image == FillImage(a.image, b.image);
    }
  }

  /** Each field of the image: the first set value of the bundle and its bases. */
  lemma ResolvedImage(ab: AppBundle, bases: seq<AppBundleBase>)
    ensures var o := MergeChain(ab, bases).spec.image;
      && IsFirstSet(Repository(o), NonZero(""), Seen(ab, bases, (s: Spec) => Repository(s.image)))
      && IsFirstSet(Tag(o), NonZero(""), Seen(ab, bases, (s: Spec) => Tag(s.image)))
      && IsFirstSet(PullPolicy(o), NonZero(""), Seen(ab, bases, (s: Spec) => PullPolicy(s.image)))
  {
    ImageFieldsMerge();
    PointersTakeFirst("");
    ResolvedTakesFirst(ab, bases, (s: Spec) => Repository(s.image), Pointer(""), NonZero(""));
    ResolvedTakesFirst(ab, bases, (s: Spec) => Tag(s.image), Pointer(""), NonZero(""));
    ResolvedTakesFirst(ab, bases, (s: Spec) => PullPolicy(s.image), Pointer(""), NonZero(""));
  }

  function Description(o: Option<HomePage>): Option<string> {
    if o == None then None else o.value.description
  }

  function Section(o: Option<HomePage>): Option<string> {
    if o == None then None else o.value.section
  }

  function Href(o: Option<HomePage>): Option<string> {
    if o == None then None else o.value.href
  }

  function Icon(o: Option<HomePage>): Option<string> {
    if o == None then None else o.value.icon
  }

  function Title(o: Option<HomePage>): Option<string> {
    if o == None then None else o.value.name
  }

  function Groups(o: Option<HomePage>): Option<string> {
    if o == None then None else o.value.groups
  }

  lemma HomePageFieldsMerge()
    ensures MergesBy((s: Spec) => Description(s.homepage), Pointer(""))
    ensures MergesBy((s: Spec) => Section(s.homepage), Pointer(""))
    ensures MergesBy((s: Spec) => Href(s.homepage), Pointer(""))
    ensures MergesBy((s: Spec) => Icon(s.homepage), Pointer(""))
    ensures MergesBy((s: Spec) => Title(s.homepage), Pointer(""))
    ensures MergesBy((s: Spec) => Groups(s.homepage), Pointer(""))
  {
    forall a: Spec, b: Spec
      ensures Description(MergeSpec(a, b).homepage) ==
        FillPtr(Description(a.homepage), Description(b.homepage), "")
      ensures Section(MergeSpec(a, b).homepage) == FillPtr(Section(a.homepage), Section(b.homepage), "")
      ensures Href(MergeSpec(a, b).homepage) == FillPtr(Href(a.homepage), Href(b.homepage), "")
      ensures Icon(MergeSpec(a, b).homepage) == FillPtr(Icon(a.homepage), Icon(b.homepage), "")
      ensures Title(MergeSpec(a, b).homepage) == FillPtr(Title(a.homepage), Title(b.homepage), "")
      ensures Groups(MergeSpec(a, b).homepage) == FillPtr(Groups(a.homepage), Groups(b.homepage), "")
    {
      assert MergeSpec(a, b).homepage == FillHomePage(a.homepage, b.homepage);
    }
  }

  /** Each field of the homepage. */
  lemma ResolvedHomePage(ab: AppBundle, bases: seq<AppBundleBase>)
    ensures var o := MergeChain(ab, bases).spec.homepage;
      && IsFirstSet(Description(o), NonZero(""), Seen(ab, bases, (s: Spec) => Description(s.homepage)))
      && IsFirstSet(Section(o), NonZero(""), Seen(ab, bases, (s: Spec) => Section(s.homepage)))
      && IsFirstSet(Href(o), NonZero(""), Seen(ab, bases, (s: Spec) => Href(s.homepage)))
      && IsFirstSet(Icon(o), NonZero(""), Seen(ab, bases, (s: Spec) => Icon(s.homepage)))
      && IsFirstSet(Title(o), NonZero(""), Seen(ab, bases, (s: Spec) => Title(s.homepage)))
      && IsFirstSet(Groups(o), NonZero(""), Seen(ab, bases, (s: Spec) => Groups(s.homepage)))
  {
    HomePageFieldsMerge();
    PointersTakeFirst("");
    ResolvedTakesFirst(ab, bases, (s: Spec) => Description(s.homepage), Pointer(""), NonZero(""));
    ResolvedTakesFirst(ab, bases, (s: Spec) => Section(s.homepage), Pointer(""), NonZero(""));
    ResolvedTakesFirst(ab, bases, (s: Spec) => Href(s.homepage), Pointer(""), NonZero(""));
    ResolvedTakesFirst(ab, bases, (s: Spec) => Icon(s.homepage), Pointer(""), NonZero(""));
    ResolvedTakesFirst(ab, bases, (s: Spec) => Title(s.homepage), Pointer(""), NonZero(""));
    ResolvedTakesFirst(ab, bases, (s: Spec) => Groups(s.homepage), Pointer(""), NonZero(""));
  }

  function Frequency(o: Option<Backup>): Option<string> {
    if o == None then None else o.value.frequency
  }

  function Retain(o: Option<Backup>): Option<int> {
    if o == None then None else o.value.retain
  }

  lemma BackupFieldsMerge()
    ensures MergesBy((s: Spec) => Frequency(s.backup), Pointer(""))
    ensures MergesBy((s: Spec) => Retain(s.backup), Pointer(0))
  {
    forall a: Spec, b: Spec
      ensures Frequency(MergeSpec(a, b).backup) == FillPtr(Frequency(a.backup), Frequency(b.backup), "")
      ensures Retain(MergeSpec(a, b).backup) == FillPtr(Retain(a.backup), Retain(b.backup), 0)
    {
      assert MergeSpec(a, b).backup == FillBackup(a.backup, b.backup);
    }
  }

  /** Each field of the backup. */
  lemma ResolvedBackup(ab: AppBundle, bases: seq<AppBundleBase>)
    ensures var o := MergeChain(ab, bases).spec.backup;
      && IsFirstSet(Frequency(o), NonZero(""), Seen(ab, bases, (s: Spec) => Frequency(s.backup)))
      && IsFirstSet(Retain(o), NonZero(0), Seen(ab, bases, (s: Spec) => Retain(s.backup)))
  {
    BackupFieldsMerge();
    PointersTakeFirst("");
    PointersTakeFirst(0);
    ResolvedTakesFirst(ab, bases, (s: Spec) => Frequency(s.backup), Pointer(""), NonZero(""));
    ResolvedTakesFirst(ab, bases, (s: Spec) => Retain(s.backup), Pointer(0), NonZero(0));
  }

  // ----- Fields of the entries of struct-valued maps -----

  /** A field of an entry: the first set value among the entry's definitions, in walking order. */
  lemma ResolvedEntryField<V(!new), W(!new)>(
    ab: AppBundle, bases: seq<AppBundleBase>, get: Spec -> Option<V>, fill: (V, V) -> V,
    proj: V -> W, g: (W, W) -> W, set_: W -> bool)
    requires MergesBy(get, EntryFill(fill)) && HandedOn(get)
    requires FillsField(fill, proj, g) && TakesFirst(g, set_)
    ensures get(MergeChain(ab, bases).spec).Some? ==>
      IsFirstSet(proj(get(MergeChain(ab, bases).spec).value), set_, Project(Defined(ab, bases, get), proj))
  {
    ResolvedStructEntry(ab, bases, get, fill);
    var ds := Defined(ab, bases, get);
    if ds != [] {
      FieldOfFold(fill, proj, g, ds[0], ds[1..]);
      FoldTakesFirst(g, set_, proj(ds[0]), Project(ds[1..], proj));
    }
  }

  lemma VolumeFieldsFill()
    ensures FillsField(FillVolume, (v: Volume) => v.hostPath, Pointer(""))
    ensures FillsField(FillVolume, (v: Volume) => v.emptyDir, Pointer(false))
    ensures FillsField(FillVolume, (v: Volume) => v.path, Pointer(""))
    ensures FillsField(FillVolume, (v: Volume) => v.size, Pointer(""))
    ensures FillsField(FillVolume, (v: Volume) => v.storageClass, Pointer(""))
    ensures FillsField(FillVolume, (v: Volume) => v.existingClaim, Pointer(""))
    ensures FillsField(FillVolume, (v: Volume) => v.backup, Pointer(false))
  {
  }

  /** Every field of a resolved volume. */
  lemma ResolvedVolume(ab: AppBundle, bases: seq<AppBundleBase>, k: string)
    requires Lookup(MergeChain(ab, bases).spec.volumes, k).Some?
    ensures var v := Lookup(MergeChain(ab, bases).spec.volumes, k).value;
      var ds := Defined(ab, bases, (s: Spec) => Lookup(s.volumes, k));
      && IsFirstSet(v.hostPath, NonZero(""), Project(ds, (v: Volume) => v.hostPath))
      && IsFirstSet(v.emptyDir, NonZero(false), Project(ds, (v: Volume) => v.emptyDir))
      && IsFirstSet(v.path, NonZero(""), Project(ds, (v: Volume) => v.path))
      && IsFirstSet(v.size, NonZero(""), Project(ds, (v: Volume) => v.size))
      && IsFirstSet(v.storageClass, NonZero(""), Project(ds, (v: Volume) => v.storageClass))
      && IsFirstSet(v.existingClaim, NonZero(""), Project(ds, (v: Volume) => v.existingClaim))
      && IsFirstSet(v.backup, NonZero(false), Project(ds, (v: Volume) => v.backup))
  {
    StructMapsMerge(k);
    VolumeFieldsFill();
    OthersTakeFirst();
    PointersTakeFirst("");
    PointersTakeFirst(false);
    ResolvedEntryField(ab, bases, (s: Spec) => Lookup(s.volumes, k), FillVolume,
      (v: Volume) => v.hostPath, Pointer(""), NonZero(""));
    ResolvedEntryField(ab, bases, (s: Spec) => Lookup(s.volumes, k), FillVolume,
      (v: Volume) => v.emptyDir, Pointer(false), NonZero(false));
    ResolvedEntryField(ab, bases, (s: Spec) => Lookup(s.volumes, k), FillVolume,
      (v: Volume) => v.path, Pointer(""), NonZero(""));
    ResolvedEntryField(ab, bases, (s: Spec) => Lookup(s.volumes, k), FillVolume,
      (v: Volume) => v.size, Pointer(""), NonZero(""));
    ResolvedEntryField(ab, bases, (s: Spec) => Lookup(s.volumes, k), FillVolume,
      (v: Volume) => v.storageClass, Pointer(""), NonZero(""));
    ResolvedEntryField(ab, bases, (s: Spec) => Lookup(s.volumes, k), FillVolume,
      (v: Volume) => v.existingClaim, Pointer(""), NonZero(""));
    ResolvedEntryField(ab, bases, (s: Spec) => Lookup(s.volumes, k), FillVolume,
      (v: Volume) => v.backup, Pointer(false), NonZero(false));
  }

  function SecretAt(c: Config, key: string): Option<string> {
    if key in c.secrets then Some(c.secrets[key]) else None
  }

  lemma ConfigFieldsFill(key: string)
    ensures FillsField(FillConfig, (c: Config) => c.fileName, FillString)
    ensures FillsField(FillConfig, (c: Config) => c.content, FillString)
    ensures FillsField(FillConfig, (c: Config) => c.existing, Pointer(""))
    ensures FillsField(FillConfig, (c: Config) => SecretAt(c, key), Pointer(""))
    ensures FillsField(FillConfig, (c: Config) => c.dirPath, FillString)
    ensures FillsField(FillConfig, (c: Config) => c.copyOver, Pointer(false))
  {
  }

  /** Every field of a resolved config, and its secrets key by key. */
  lemma ResolvedConfig(ab: AppBundle, bases: seq<AppBundleBase>, k: string, key: string)
    requires Lookup(MergeChain(ab, bases).spec.configs, k).Some?
    ensures var c := Lookup(MergeChain(ab, bases).spec.configs, k).value;
      var ds := Defined(ab, bases, (s: Spec) => Lookup(s.configs, k));
      && IsFirstSet(c.fileName, NonEmpty<char>, Project(ds, (c: Config) => c.fileName))
      && IsFirstSet(c.content, NonEmpty<char>, Project(ds, (c: Config) => c.content))
      && IsFirstSet(c.existing, NonZero(""), Project(ds, (c: Config) => c.existing))
      && IsFirstSet(SecretAt(c, key), NonZero(""), Project(ds, (c: Config) => SecretAt(c, key)))
      && IsFirstSet(c.dirPath, NonEmpty<char>, Project(ds, (c: Config) => c.dirPath))
      && IsFirstSet(c.copyOver, NonZero(false), Project(ds, (c: Config) => c.copyOver))
  {
    StructMapsMerge(k);
    ConfigFieldsFill(key);
    OthersTakeFirst();
    PointersTakeFirst("");
    PointersTakeFirst(false);
    ResolvedEntryField(ab, bases, (s: Spec) => Lookup(s.configs, k), FillConfig,
      (c: Config) => c.fileName, FillString, NonEmpty<char>);
    ResolvedEntryField(ab, bases, (s: Spec) => Lookup(s.configs, k), FillConfig,
      (c: Config) => c.content, FillString, NonEmpty<char>);
    ResolvedEntryField(ab, bases, (s: Spec) => Lookup(s.configs, k), FillConfig,
      (c: Config) => c.existing, Pointer(""), NonZero(""));
    ResolvedEntryField(ab, bases, (s: Spec) => Lookup(s.configs, k), FillConfig,
      (c: Config) => SecretAt(c, key), Pointer(""), NonZero(""));
    ResolvedEntryField(ab, bases, (s: Spec) => Lookup(s.configs, k), FillConfig,
      (c: Config) => c.dirPath, FillString, NonEmpty<char>);
    ResolvedEntryField(ab, bases, (s: Spec) => Lookup(s.configs, k), FillConfig,
      (c: Config) => c.copyOver, Pointer(false), NonZero(false));
  }

  lemma SourcedEnvFieldsFill()
    ensures FillsField(FillSourcedEnv, (s: SourcedEnv) => s.externalSecret, FillString)
    ensures FillsField(FillSourcedEnv, (s: SourcedEnv) => s.secret, FillString)
    ensures FillsField(FillSourcedEnv, (s: SourcedEnv) => s.configMap, FillString)
    ensures FillsField(FillSourcedEnv, (s: SourcedEnv) => s.key, FillString)
  {
  }

  /** Every field of a resolved sourced variable. */
  lemma ResolvedSourcedEnv(ab: AppBundle, bases: seq<AppBundleBase>, k: string)
    requires Lookup(MergeChain(ab, bases).spec.sourcedEnvs, k).Some?
    ensures var s := Lookup(MergeChain(ab, bases).spec.sourcedEnvs, k).value;
      var ds := Defined(ab, bases, (s: Spec) => Lookup(s.sourcedEnvs, k));
      && IsFirstSet(s.externalSecret, NonEmpty<char>, Project(ds, (s: SourcedEnv) => s.externalSecret))
      && IsFirstSet(s.secret, NonEmpty<char>, Project(ds, (s: SourcedEnv) => s.secret))
      && IsFirstSet(s.configMap, NonEmpty<char>, Project(ds, (s: SourcedEnv) => s.configMap))
      && IsFirstSet(s.key, NonEmpty<char>, Project(ds, (s: SourcedEnv) => s.key))
  {
    StructMapsMerge(k);
    SourcedEnvFieldsFill();
    OthersTakeFirst();
    ResolvedEntryField(ab, bases, (s: Spec) => Lookup(s.sourcedEnvs, k), FillSourcedEnv,
      (s: SourcedEnv) => s.externalSecret, FillString, NonEmpty<char>);
    ResolvedEntryField(ab, bases, (s: Spec) => Lookup(s.sourcedEnvs, k), FillSourcedEnv,
      (s: SourcedEnv) => s.secret, FillString, NonEmpty<char>);
    ResolvedEntryField(ab, bases, (s: Spec) => Lookup(s.sourcedEnvs, k), FillSourcedEnv,
      (s: SourcedEnv) => s.configMap, FillString, NonEmpty<char>);
    ResolvedEntryField(ab, bases, (s: Spec) => Lookup(s.sourcedEnvs, k), FillSourcedEnv,
      (s: SourcedEnv) => s.key, FillString, NonEmpty<char>);
  }

  function DomainOf(r: Route): Option<string> {
    if r.ingress == None then None else r.ingress.value.domain
  }

  function AuthOf(r: Route): Option<bool> {
    if r.ingress == None then None else r.ingress.value.auth
  }

  lemma RouteFieldsFill()
    ensures FillsField(FillRoute, (r: Route) => r.port, Pointer(0))
    ensures FillsField(FillRoute, (r: Route) => r.targetPort, Pointer(0))
    ensures FillsField(FillRoute, (r: Route) => r.protocol, Pointer(""))
    ensures FillsField(FillRoute, (r: Route) => DomainOf(r), Pointer(""))
    ensures FillsField(FillRoute, (r: Route) => AuthOf(r), Pointer(false))
  {
  }

  /** Every field of a resolved route and of its ingress. */
  lemma ResolvedRoute(ab: AppBundle, bases: seq<AppBundleBase>, k: string)
    requires Lookup(MergeChain(ab, bases).spec.routes, k).Some?
    ensures var r := Lookup(MergeChain(ab, bases).spec.routes, k).value;
      var ds := Defined(ab, bases, (s: Spec) => Lookup(s.routes, k));
      && IsFirstSet(r.port, NonZero(0), Project(ds, (r: Route) => r.port))
      && IsFirstSet(r.targetPort, NonZero(0), Project(ds, (r: Route) => r.targetPort))
      && IsFirstSet(r.protocol, NonZero(""), Project(ds, (r: Route) => r.protocol))
      && IsFirstSet(DomainOf(r), NonZero(""), Project(ds, (r: Route) => DomainOf(r)))
      && IsFirstSet(AuthOf(r), NonZero(false), Project(ds, (r: Route) => AuthOf(r)))
  {
    StructMapsMerge(k);
    RouteFieldsFill();
    OthersTakeFirst();
    PointersTakeFirst("");
    PointersTakeFirst(0);
    PointersTakeFirst(false);
    ResolvedEntryField(ab, bases, (s: Spec) => Lookup(s.routes, k), FillRoute,
      (r: Route) => r.port, Pointer(0), NonZero(0));
    ResolvedEntryField(ab, bases, (s: Spec) => Lookup(s.routes, k), FillRoute,
      (r: Route) => r.targetPort, Pointer(0), NonZero(0));
    ResolvedEntryField(ab, bases, (s: Spec) => Lookup(s.routes, k), FillRoute,
      (r: Route) => r.protocol, Pointer(""), NonZero(""));
    ResolvedEntryField(ab, bases, (s: Spec) => Lookup(s.routes, k), FillRoute,
      (r: Route) => DomainOf(r), Pointer(""), NonZero(""));
    ResolvedEntryField(ab, bases, (s: Spec) => Lookup(s.routes, k), FillRoute,
      (r: Route) => AuthOf(r), Pointer(false), NonZero(false));
  }
}
