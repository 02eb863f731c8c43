/** What runs of the volume reconciler do to persistent volume claims. */
module ClaimRuns {
  import opened Options
  import opened KeyOrder
  import opened Bundle
  import opened DeepDerivative
  import opened ClaimCompiler
  import opened Api
  import opened Programs
  import opened SoloRuns

  function VolumeAt(ab: AppBundle, key: string): Volume
    requires key in Entries(ab.spec.volumes)
  {
    Entries(ab.spec.volumes)[key]
  }

  predicate VolumeDone(ab: AppBundle, key: string, c: Cluster)
    requires key in Entries(ab.spec.volumes) && VolumesReady(ab)
  {
    var v := VolumeAt(ab, key);
    match KindOf(v)
    case Existing => ExistingKey(ab, v) in c && ClaimLabels(ab, v).Keys <= c[ExistingKey(ab, v)].labels.Keys
    case Claimed => ClaimKey(ab, key) in c && UpToDate(ClaimObj(ab, v), c[ClaimKey(ab, key)])
    case _ => true
  }

  predicate VolumesDone(ab: AppBundle, c: Cluster)
    requires VolumesReady(ab)
  {
    forall key :: key in Entries(ab.spec.volumes) ==> VolumeDone(ab, key, c)
  }

  predicate ExistingPresent(ab: AppBundle, c: Cluster) {
    forall key :: key in Entries(ab.spec.volumes) && KindOf(VolumeAt(ab, key)) == Existing ==>
      ExistingKey(ab, VolumeAt(ab, key)) in c
  }

  function ExistingKeys(ab: AppBundle): set<Key> {
    set key | key in Entries(ab.spec.volumes) && KindOf(VolumeAt(ab, key)) == Existing ::
      ExistingKey(ab, VolumeAt(ab, key))
  }

  /** The claims the bundle manages itself, as opposed to existing claims it only labels. */
  predicate Managed(ab: AppBundle, k: Key) {
    exists key :: key in Entries(ab.spec.volumes) && KindOf(VolumeAt(ab, key)) == Claimed && k == ClaimKey(ab, key)
  }

  /** No claim disappears. */
  predicate ClaimsKept(c: Cluster, after: Cluster) {
    forall k :: k in c && k.kind == ClaimKind ==> k in after
  }

  /** An object that at most gains label keys: no label changes its value and its spec is still there. */
  predicate OnlyGains(c: Cluster, after: Cluster, k: Key) {
    k in c ==>
      && k in after
      && Derives(c[k].spec, after[k].spec)
      && forall l :: l in c[k].labels ==> l in after[k].labels && after[k].labels[l] == c[k].labels[l]
  }

  ghost predicate SharedOnlyGain(ab: AppBundle, c: Cluster, after: Cluster) {
    forall k: Key :: k.kind == ClaimKind && !Managed(ab, k) ==> OnlyGains(c, after, k)
  }

  lemma OnlyGainsTransitive(a: Cluster, b: Cluster, c: Cluster, k: Key)
    requires OnlyGains(a, b, k) && OnlyGains(b, c, k)
    ensures OnlyGains(a, c, k)
  {
    if k in a {
      DerivesTransitive(a[k].spec, b[k].spec, c[k].spec);
    }
  }

  lemma OnlyGainsReflexive(c: Cluster, k: Key)
    ensures OnlyGains(c, c, k)
  {
    if k in c {
      DerivesReflexive(c[k].spec);
    }
  }

  lemma UntouchedGains(c: Cluster, mid: Cluster, j: Key, k: Key)
    requires SameExcept(c, mid, {j}) && j != k
    ensures OnlyGains(c, mid, k)
  {
    Untouched(c, mid, {j}, k);
    if k in c {
      DerivesReflexive(c[k].spec);
    }
  }

  /** One volume's write, as it stands after UpsertResource with neverDelete. */
  predicate ClaimWritten(c: Cluster, mid: Cluster, key: Key, sent: Obj) {
    LeftAs(c, mid, key, sent) && (key in c ==> key in mid)
  }

  lemma ExistingWriteGains(c: Cluster, mid: Cluster, key: Key, labels: map<string, string>)
    requires key in c && key.kind == ClaimKind
    requires ClaimWritten(c, mid, key, Obj(labels + c[key].labels, c[key].spec))
    ensures forall k :: OnlyGains(c, mid, k)
  {
    forall k: Key ensures OnlyGains(c, mid, k) {
      if k != key {
        UntouchedGains(c, mid, key, k);
      } else {
        DerivesReflexive(c[key].spec);
      }
    }
  }

  lemma KeptByWrite(c: Cluster, mid: Cluster, key: Key, sent: Obj)
    requires ClaimWritten(c, mid, key, sent)
    ensures ClaimsKept(c, mid)
  {
    forall k | k in c && k != key ensures k in mid {
      Untouched(c, mid, {key}, k);
    }
  }

  /** The safety half, for any server whatsoever: claims are kept and shared claims only gain. */
  lemma {:induction false} VolumeLoopSafe(
    ab: AppBundle, keys: seq<string>,
    c: Cluster, mode: Mode, trace: seq<Event>, after: Cluster, err: Option<ApiError>)
    requires VolumesReady(ab) && forall k :: k in keys ==> k in Entries(ab.spec.volumes)
    requires Runs(VolumeLoop(ab, keys), c, mode, trace, after, err)
    ensures ClaimsKept(c, after) && SharedOnlyGain(ab, c, after) && KeepsDefaultKeys(ab, c, after)
    decreases |keys|
  {
    if keys == [] {
      ReturnedRun(None, c, mode, trace, after, err);
      forall k: Key ensures OnlyGains(c, c, k) { OnlyGainsReflexive(c, k); }
    } else {
      var e, mid, rest := OneVolumeSafe(ab, keys, c, mode, trace, after, err);
      if e.Some? {
        ReturnedRun(e, mid, mode, rest, after, err);
      } else {
        VolumeLoopSafe(ab, keys[1..], mid, mode, rest, after, err);
        forall k: Key | k.kind == ClaimKind && !Managed(ab, k) ensures OnlyGains(c, after, k) {
          OnlyGainsTransitive(c, mid, after, k);
        }
      }
    }
  }

  lemma OneVolumeSafe(
    ab: AppBundle, keys: seq<string>,
    c: Cluster, mode: Mode, trace: seq<Event>, after: Cluster, err: Option<ApiError>)
    returns (e: Option<ApiError>, mid: Cluster, rest: seq<Event>)
    requires VolumesReady(ab) && keys != [] && forall k :: k in keys ==> k in Entries(ab.spec.volumes)
    requires Runs(VolumeLoop(ab, keys), c, mode, trace, after, err)
    ensures Runs(AfterHead(ab, keys, e), mid, mode, rest, after, err)
    ensures ClaimsKept(c, mid) && SharedOnlyGain(ab, c, mid) && KeepsDefaultKeys(ab, c, mid)
    ensures forall k: Key :: k.kind == ClaimKind && !Managed(ab, k) ==> HeadAt(ab, keys[0], k, c, mid, e)
    ensures forall k: Key ::
      k.kind == ClaimKind && !Managed(ab, k) && !mode.Faulty? && k in c && LabelledFor(ab, keys[0], k, c) ==>
        HeadSpares(ab, keys, trace, e, rest, At(k))
  {
    var v := VolumeAt(ab, keys[0]);
    if KindOf(v) == Existing {
      e, mid, rest := ExistingSafe(ab, keys, c, mode, trace, after, err);
      GainingKeepsKeys(ab, c, mid);
    } else if KindOf(v) == Claimed {
      e, mid, rest := ClaimSafe(ab, keys, c, mode, trace, after, err);
      assert Managed(ab, ClaimKey(ab, keys[0]));
      forall k: Key | k.kind == ClaimKind && !Managed(ab, k)
        ensures OnlyGains(c, mid, k) && HeadAt(ab, keys[0], k, c, mid, e) {
        Untouched(c, mid, {ClaimKey(ab, keys[0])}, k);
        UntouchedGains(c, mid, ClaimKey(ab, keys[0]), k);
      }
      WritingKeepsKeys(ab, keys[0], c, mid);
    } else {
      e, mid, rest := None, c, trace;
      forall k: Key ensures OnlyGains(c, c, k) { OnlyGainsReflexive(c, k); }
      GainingKeepsKeys(ab, c, c);
    }
  }

  lemma GainingKeepsKeys(ab: AppBundle, c: Cluster, mid: Cluster)
    requires forall k :: OnlyGains(c, mid, k)
    ensures KeepsDefaultKeys(ab, c, mid)
  {
    forall k: Key, l | k.kind == ClaimKind && HasKeys(c, k, l) ensures HasKeys(mid, k, l) {
      assert OnlyGains(c, mid, k);
    }
  }

  lemma WritingKeepsKeys(ab: AppBundle, key: string, c: Cluster, mid: Cluster)
    requires key in Entries(ab.spec.volumes) && ClaimsKept(c, mid)
    requires SameExcept(c, mid, {ClaimKey(ab, key)}) && Relabelled(ab, key, c, mid)
    ensures KeepsDefaultKeys(ab, c, mid)
  {
    forall k: Key, l | k.kind == ClaimKind && l <= DefaultLabels(ab).Keys && HasKeys(c, k, l)
      ensures HasKeys(mid, k, l) {
      if k != ClaimKey(ab, key) {
        Untouched(c, mid, {ClaimKey(ab, key)}, k);
      }
    }
  }

  /** The claim k is there with the label keys l. */
  predicate HasKeys(c: Cluster, k: Key, l: set<string>) {
    k in c && l <= c[k].labels.Keys
  }

  /** Label keys that every bundle gives its claims stay on every claim. */
  ghost predicate KeepsDefaultKeys(ab: AppBundle, c: Cluster, after: Cluster) {
    forall k: Key, l :: k.kind == ClaimKind && l <= DefaultLabels(ab).Keys && HasKeys(c, k, l) ==> HasKeys(after, k, l)
  }

  /** What remains to be done after the first volume. */
  function AfterHead(ab: AppBundle, keys: seq<string>, e: Option<ApiError>): Prog
    requires VolumesReady(ab) && keys != [] && forall k :: k in keys ==> k in Entries(ab.spec.volumes)
  {
    if e.Some? then Ret(e) else VolumeLoop(ab, keys[1..])
  }

  /** The calls for the first volume write nothing within scope. */
  ghost predicate HeadSpares(
    ab: AppBundle, keys: seq<string>, trace: seq<Event>, e: Option<ApiError>, rest: seq<Event>, scope: Scope)
    requires VolumesReady(ab) && keys != [] && forall k :: k in keys ==> k in Entries(ab.spec.volumes)
  {
    Spares(AfterHead(ab, keys, e), rest, scope) ==> Spares(VolumeLoop(ab, keys), trace, scope)
  }

  /** The claim k carries the label keys that volume key wants on it, if that is the claim it mounts. */
  predicate LabelledFor(ab: AppBundle, key: string, k: Key, c: Cluster)
    requires key in Entries(ab.spec.volumes)
  {
    var v := VolumeAt(ab, key);
    KindOf(v) == Existing && ExistingKey(ab, v) == k ==> k in c && ClaimLabels(ab, v).Keys <= c[k].labels.Keys
  }

  /** What handling the volume key does to a claim k that the bundle does not manage. */
  predicate HeadAt(ab: AppBundle, key: string, k: Key, c: Cluster, mid: Cluster, e: Option<ApiError>)
    requires key in Entries(ab.spec.volumes)
  {
    && (e == None ==> LabelledFor(ab, key, k, mid))
    && (k in c && LabelledFor(ab, key, k, c) ==> k in mid && mid[k] == c[k])
  }

  lemma ExistingSafe(
    ab: AppBundle, keys: seq<string>,
    c: Cluster, mode: Mode, trace: seq<Event>, after: Cluster, err: Option<ApiError>)
    returns (e: Option<ApiError>, mid: Cluster, rest: seq<Event>)
    requires VolumesReady(ab) && keys != [] && forall k :: k in keys ==> k in Entries(ab.spec.volumes)
    requires KindOf(VolumeAt(ab, keys[0])) == Existing
    requires Runs(VolumeLoop(ab, keys), c, mode, trace, after, err)
    ensures Runs(AfterHead(ab, keys, e), mid, mode, rest, after, err)
    ensures ClaimsKept(c, mid) && forall k :: OnlyGains(c, mid, k)
    ensures forall k :: HeadAt(ab, keys[0], k, c, mid, e)
    ensures forall k :: !mode.Faulty? && k in c && LabelledFor(ab, keys[0], k, c) ==>
      HeadSpares(ab, keys, trace, e, rest, At(k))
  {
    var r, c1, t1 := FirstCall(VolumeLoop(ab, keys), c, mode, trace, after, err);
    assert VolumeLoop(ab, keys).k(r) == ExistingGot(ab, keys, r);
    e, mid, rest := ExistingGotSafe(ab, keys, r, c, mode, t1, after, err);
  }

  lemma ExistingGotSafe(
    ab: AppBundle, keys: seq<string>, r: Response,
    c: Cluster, mode: Mode, trace: seq<Event>, after: Cluster, err: Option<ApiError>)
    returns (e: Option<ApiError>, mid: Cluster, rest: seq<Event>)
    requires VolumesReady(ab) && keys != [] && forall k :: k in keys ==> k in Entries(ab.spec.volumes)
    requires KindOf(VolumeAt(ab, keys[0])) == Existing
    requires Serves(c, Get(ExistingKey(ab, VolumeAt(ab, keys[0]))), r, c, mode)
    requires Runs(ExistingGot(ab, keys, r), c, mode, trace, after, err)
    ensures Runs(AfterHead(ab, keys, e), mid, mode, rest, after, err)
    ensures ClaimsKept(c, mid) && forall k :: OnlyGains(c, mid, k)
    ensures forall k :: HeadAt(ab, keys[0], k, c, mid, e)
    ensures var k := ExistingKey(ab, VolumeAt(ab, keys[0]));
      !mode.Faulty? && k in c && LabelledFor(ab, keys[0], k, c) ==>
      SparesAll(ExistingGot(ab, keys, r), trace, AfterHead(ab, keys, e), rest)
    ensures SparesBut(ExistingGot(ab, keys, r), trace, AfterHead(ab, keys, e), rest,
      ExistingKey(ab, VolumeAt(ab, keys[0])))
  {
    var v := VolumeAt(ab, keys[0]);
    var key, current := ExistingKey(ab, v), CurrentOr(r, ZERO_CLAIM);
    var labels := ClaimLabels(ab, v) + current.labels;
    AddsNothingIff(ClaimLabels(ab, v), current.labels);
    if current.labels == labels {
      e, mid, rest := None, c, trace;
      assert APP_BUNDLE_SELECTOR in labels;
      forall k: Key ensures OnlyGains(c, c, k) { OnlyGainsReflexive(c, k); }
    } else {
      var sent := Obj(labels, current.spec);
      e, mid, rest := UpsertRun(key, sent, ErrorOf(r), true, AfterClaim(ab, keys), c, mode, trace, after, err);
      assert AfterClaim(ab, keys)(e) == AfterHead(ab, keys, e);
      KeptByWrite(c, mid, key, sent);
      ExistingUpsertGains(ab, v, r, c, c, mode, mid);
      ExistingHead(ab, keys[0], r, c, mid, e);
    }
  }

  lemma ExistingHead(ab: AppBundle, key: string, r: Response, c: Cluster, mid: Cluster, e: Option<ApiError>)
    requires key in Entries(ab.spec.volumes) && KindOf(VolumeAt(ab, key)) == Existing
    requires var k := ExistingKey(ab, VolumeAt(ab, key)); var labels := ClaimLabels(ab, VolumeAt(ab, key));
      && SameExcept(c, mid, {k})
      && (e == None ==> k in mid && labels.Keys <= mid[k].labels.Keys)
      && (k in c ==> (r == Found(c[k]) && !(labels.Keys <= c[k].labels.Keys)) || mid == c)
    ensures forall k :: HeadAt(ab, key, k, c, mid, e)
  {
    forall k | k != ExistingKey(ab, VolumeAt(ab, key)) ensures HeadAt(ab, key, k, c, mid, e) {
      Untouched(c, mid, {ExistingKey(ab, VolumeAt(ab, key))}, k);
    }
  }

  /** A claim of the bundle's own is as it was, or carries the labels it should have. */
  predicate Relabelled(ab: AppBundle, key: string, c: Cluster, mid: Cluster)
    requires key in Entries(ab.spec.volumes)
  {
    var k := ClaimKey(ab, key);
    k in mid ==> (k in c && mid[k] == c[k]) || mid[k].labels == ClaimLabels(ab, VolumeAt(ab, key))
  }

  lemma ClaimSafe(
    ab: AppBundle, keys: seq<string>,
    c: Cluster, mode: Mode, trace: seq<Event>, after: Cluster, err: Option<ApiError>)
    returns (e: Option<ApiError>, mid: Cluster, rest: seq<Event>)
    requires VolumesReady(ab) && keys != [] && forall k :: k in keys ==> k in Entries(ab.spec.volumes)
    requires KindOf(VolumeAt(ab, keys[0])) == Claimed
    requires Runs(VolumeLoop(ab, keys), c, mode, trace, after, err)
    ensures Runs(AfterHead(ab, keys, e), mid, mode, rest, after, err)
    ensures ClaimsKept(c, mid) && SameExcept(c, mid, {ClaimKey(ab, keys[0])})
    ensures Relabelled(ab, keys[0], c, mid)
    ensures forall k :: k != ClaimKey(ab, keys[0]) ==> HeadSpares(ab, keys, trace, e, rest, At(k))
  {
    var r, c1, t1 := FirstCall(VolumeLoop(ab, keys), c, mode, trace, after, err);
    assert VolumeLoop(ab, keys).k(r) == ClaimGot(ab, keys, r);
    e, mid, rest := ClaimGotSafe(ab, keys, r, c, mode, t1, after, err);
  }

  lemma ClaimGotSafe(
    ab: AppBundle, keys: seq<string>, r: Response,
    c: Cluster, mode: Mode, trace: seq<Event>, after: Cluster, err: Option<ApiError>)
    returns (e: Option<ApiError>, mid: Cluster, rest: seq<Event>)
    requires VolumesReady(ab) && keys != [] && forall k :: k in keys ==> k in Entries(ab.spec.volumes)
    requires KindOf(VolumeAt(ab, keys[0])) == Claimed
    requires Runs(ClaimGot(ab, keys, r), c, mode, trace, after, err)
    ensures Runs(AfterHead(ab, keys, e), mid, mode, rest, after, err)
    ensures ClaimsKept(c, mid) && SameExcept(c, mid, {ClaimKey(ab, keys[0])})
    ensures Relabelled(ab, keys[0], c, mid)
    ensures SparesBut(ClaimGot(ab, keys, r), trace, AfterHead(ab, keys, e), rest, ClaimKey(ab, keys[0]))
  {
    var key, expected := ClaimKey(ab, keys[0]), ClaimObj(ab, VolumeAt(ab, keys[0]));
    var current := CurrentOr(r, ZERO_CLAIM);
    if UpToDate(expected, current) {
      e, mid, rest := None, c, trace;
    } else {
      var sent := if Derives(expected.spec, current.spec) then Obj(expected.labels, current.spec) else expected;
      e, mid, rest := UpsertRun(key, sent, ErrorOf(r), true, AfterClaim(ab, keys), c, mode, trace, after, err);
      assert AfterClaim(ab, keys)(e) == AfterHead(ab, keys, e);
      KeptByWrite(c, mid, key, sent);
    }
  }

  lemma ExistingUpsertGains(
    ab: AppBundle, v: Volume, r: Response, c: Cluster, c1: Cluster, mode: Mode, mid: Cluster)
    requires KindOf(v) == Existing
    requires Serves(c, Get(ExistingKey(ab, v)), r, c1, mode)
    requires var current := CurrentOr(r, ZERO_CLAIM); var key := ExistingKey(ab, v);
      var sent := Obj(ClaimLabels(ab, v) + current.labels, current.spec);
      && ClaimWritten(c1, mid, key, sent)
      && (r.Err? && key in c1 ==> mid == c1)
    ensures forall k :: OnlyGains(c, mid, k)
  {
    var key := ExistingKey(ab, v);
    assert c1 == c;
    if key in c && r.Found? {
      ExistingWriteGains(c, mid, key, ClaimLabels(ab, v));
    } else {
      forall k: Key ensures OnlyGains(c, mid, k) {
        if k != key {
          UntouchedGains(c, mid, key, k);
        } else {
          OnlyGainsReflexive(c, key);
        }
      }
    }
  }

  // ----- The progress half, on a server that does not lie -----

  /** Without a backup section all volumes of a bundle want the same labels; existing claims never compete. */
  predicate LabelsAgree(ab: AppBundle) {
    ab.spec.backup == None || forall key :: key in Entries(ab.spec.volumes) ==> KindOf(VolumeAt(ab, key)) != Claimed
  }

  lemma ClaimKeyInjective(ab: AppBundle, i: string, j: string)
    requires ClaimKey(ab, i) == ClaimKey(ab, j)
    ensures i == j
  {
    assert (ab.name + "-" + i)[|ab.name| + 1..] == i && (ab.name + "-" + j)[|ab.name| + 1..] == j;
  }

  /** Labelling an existing claim disturbs no volume that is done. */
  lemma GainKeepsDone(ab: AppBundle, i: string, c: Cluster, mid: Cluster, key: Key, labels: map<string, string>)
    requires VolumesReady(ab) && LabelsAgree(ab) && i in Entries(ab.spec.volumes) && VolumeDone(ab, i, c)
    requires key in c && key.kind == ClaimKind
    requires ClaimWritten(c, mid, key, Obj(labels + c[key].labels, c[key].spec))
    requires ab.spec.backup == None ==> labels == DefaultLabels(ab)
    requires labels + c[key].labels != c[key].labels
    ensures VolumeDone(ab, i, mid)
  {
    var v := VolumeAt(ab, i);
    ExistingWriteGains(c, mid, key, labels);
    if KindOf(v) == Existing {
      assert OnlyGains(c, mid, ExistingKey(ab, v));
    } else if KindOf(v) == Claimed && ClaimKey(ab, i) != key {
      Untouched(c, mid, {key}, ClaimKey(ab, i));
    }
  }

  /** Writing a claim of one's own disturbs no other volume that is done. */
  lemma ClaimKeepsDone(ab: AppBundle, i: string, j: string, c: Cluster, mid: Cluster, sent: Obj)
    requires VolumesReady(ab) && ab.spec.backup == None
    requires i in Entries(ab.spec.volumes) && VolumeDone(ab, i, c)
    requires j in Entries(ab.spec.volumes) && KindOf(VolumeAt(ab, j)) == Claimed && i != j
    requires sent.labels == DefaultLabels(ab)
    requires ClaimWritten(c, mid, ClaimKey(ab, j), sent)
    requires ClaimKey(ab, j) in mid && Admits(sent, mid[ClaimKey(ab, j)])
    ensures VolumeDone(ab, i, mid)
  {
    var v, key := VolumeAt(ab, i), ClaimKey(ab, j);
    if KindOf(v) == Existing && ExistingKey(ab, v) != key {
      Untouched(c, mid, {key}, ExistingKey(ab, v));
    } else if KindOf(v) == Claimed {
      if ClaimKey(ab, i) == key {
        ClaimKeyInjective(ab, i, j);
      }
      Untouched(c, mid, {key}, ClaimKey(ab, i));
    }
  }

  /** What handling the first volume achieves when no error ends the loop there. */
  ghost predicate HeadProgress(ab: AppBundle, key: string, c: Cluster, mid: Cluster)
    requires VolumesReady(ab) && key in Entries(ab.spec.volumes)
  {
    && VolumeDone(ab, key, mid)
    && ClaimsKept(c, mid)
    && forall i :: i in Entries(ab.spec.volumes) && VolumeDone(ab, i, c) ==> VolumeDone(ab, i, mid)
  }

  lemma OneVolumeProgress(
    ab: AppBundle, keys: seq<string>, c: Cluster, mode: Mode, trace: seq<Event>, after: Cluster, err: Option<ApiError>)
    returns (e: Option<ApiError>, mid: Cluster, rest: seq<Event>)
    requires VolumesReady(ab) && LabelsAgree(ab) && ExistingPresent(ab, c) && !mode.Faulty?
    requires keys != [] && forall k :: k in keys ==> k in Entries(ab.spec.volumes)
    requires Runs(VolumeLoop(ab, keys), c, mode, trace, after, err)
    ensures keys[0] in Entries(ab.spec.volumes)
    ensures Runs(AfterHead(ab, keys, e), mid, mode, rest, after, err)
    ensures mode.Truthful? ==> e == None
    ensures e == None ==> HeadProgress(ab, keys[0], c, mid)
    ensures mode.Truthful? && VolumeDone(ab, keys[0], c) ==>
      mid == c && HeadSpares(ab, keys, trace, e, rest, Everywhere)
  {
    var v := VolumeAt(ab, keys[0]);
    assert keys[0] in keys;
    if KindOf(v) == Existing {
      e, mid, rest := ExistingProgress(ab, keys, c, mode, trace, after, err);
    } else if KindOf(v) == Claimed {
      e, mid, rest := ClaimProgress(ab, keys, c, mode, trace, after, err);
    } else {
      e, mid, rest := None, c, trace;
    }
  }

  lemma AddsNothingIff(a: map<string, string>, b: map<string, string>)
    ensures a + b == b <==> a.Keys <= b.Keys
  {
    if a + b == b {
      assert (a + b).Keys == a.Keys + b.Keys;
    }
    if a.Keys <= b.Keys {
      assert a + b == b;
    }
  }

  lemma ExistingProgress(
    ab: AppBundle, keys: seq<string>, c: Cluster, mode: Mode, trace: seq<Event>, after: Cluster, err: Option<ApiError>)
    returns (e: Option<ApiError>, mid: Cluster, rest: seq<Event>)
    requires VolumesReady(ab) && LabelsAgree(ab) && ExistingPresent(ab, c) && !mode.Faulty?
    requires keys != [] && forall k :: k in keys ==> k in Entries(ab.spec.volumes)
    requires KindOf(VolumeAt(ab, keys[0])) == Existing
    requires Runs(VolumeLoop(ab, keys), c, mode, trace, after, err)
    ensures Runs(AfterHead(ab, keys, e), mid, mode, rest, after, err)
    ensures mode.Truthful? ==> e == None
    ensures e == None ==> HeadProgress(ab, keys[0], c, mid)
    ensures mode.Truthful? && VolumeDone(ab, keys[0], c) ==>
      mid == c && HeadSpares(ab, keys, trace, e, rest, Everywhere)
  {
    var v := VolumeAt(ab, keys[0]);
    var key := ExistingKey(ab, v);
    assert keys[0] in Entries(ab.spec.volumes);
    var r, c1, t1 := FirstCall(VolumeLoop(ab, keys), c, mode, trace, after, err);
    assert VolumeLoop(ab, keys).k(r) == ExistingGot(ab, keys, r);
    assert c1 == c;
    var current := CurrentOr(r, ZERO_CLAIM);
    var labels := ClaimLabels(ab, v) + current.labels;
    AddsNothingIff(ClaimLabels(ab, v), current.labels);
    if current.labels == labels {
      assert APP_BUNDLE_SELECTOR in labels;
      e, mid, rest := None, c1, t1;
    } else {
      var sent := Obj(labels, current.spec);
      e, mid, rest := UpsertRun(key, sent, ErrorOf(r), true, AfterClaim(ab, keys), c1, mode, t1, after, err);
      assert AfterClaim(ab, keys)(e) == AfterHead(ab, keys, e);
      if e == None {
        assert r == Found(c[key]);
        KeptByWrite(c1, mid, key, sent);
        forall i | i in Entries(ab.spec.volumes) && VolumeDone(ab, i, c) ensures VolumeDone(ab, i, mid) {
          GainKeepsDone(ab, i, c, mid, key, ClaimLabels(ab, v));
        }
      }
    }
  }

  lemma ClaimProgress(
    ab: AppBundle, keys: seq<string>, c: Cluster, mode: Mode, trace: seq<Event>, after: Cluster, err: Option<ApiError>)
    returns (e: Option<ApiError>, mid: Cluster, rest: seq<Event>)
    requires VolumesReady(ab) && ab.spec.backup == None && !mode.Faulty?
    requires keys != [] && forall k :: k in keys ==> k in Entries(ab.spec.volumes)
    requires KindOf(VolumeAt(ab, keys[0])) == Claimed
    requires Runs(VolumeLoop(ab, keys), c, mode, trace, after, err)
    ensures Runs(AfterHead(ab, keys, e), mid, mode, rest, after, err)
    ensures mode.Truthful? ==> e == None
    ensures e == None ==> HeadProgress(ab, keys[0], c, mid)
    ensures mode.Truthful? && VolumeDone(ab, keys[0], c) ==>
      mid == c && HeadSpares(ab, keys, trace, e, rest, Everywhere)
  {
    var v := VolumeAt(ab, keys[0]);
    var key := ClaimKey(ab, keys[0]);
    var r, c1, t1 := FirstCall(VolumeLoop(ab, keys), c, mode, trace, after, err);
    assert VolumeLoop(ab, keys).k(r) == ClaimGot(ab, keys, r);
    var expected, current := ClaimObj(ab, v), CurrentOr(r, ZERO_CLAIM);
    NoClaimNeverMatches(v);
    if UpToDate(expected, current) {
      e, mid, rest := None, c1, t1;
    } else {
      var sent := if Derives(expected.spec, current.spec) then Obj(expected.labels, current.spec) else expected;
      e, mid, rest := UpsertRun(key, sent, ErrorOf(r), true, AfterClaim(ab, keys), c1, mode, t1, after, err);
      assert AfterClaim(ab, keys)(e) == AfterHead(ab, keys, e);
      if e == None {
        ClaimWrittenProgress(ab, keys[0], current, c, mid, sent);
      }
    }
  }

  lemma ClaimWrittenProgress(ab: AppBundle, key: string, current: Obj, c: Cluster, mid: Cluster, sent: Obj)
    requires VolumesReady(ab) && ab.spec.backup == None
    requires key in Entries(ab.spec.volumes) && KindOf(VolumeAt(ab, key)) == Claimed
    requires var expected := ClaimObj(ab, VolumeAt(ab, key));
      sent == if Derives(expected.spec, current.spec) then Obj(expected.labels, current.spec) else expected
    requires ClaimWritten(c, mid, ClaimKey(ab, key), sent)
    requires ClaimKey(ab, key) in mid && Admits(sent, mid[ClaimKey(ab, key)])
    ensures HeadProgress(ab, key, c, mid)
  {
    var k, expected := ClaimKey(ab, key), ClaimObj(ab, VolumeAt(ab, key));
    KeptByWrite(c, mid, k, sent);
    if Derives(expected.spec, current.spec) {
      DerivesTransitive(expected.spec, current.spec, mid[k].spec);
    }
    forall i | i in Entries(ab.spec.volumes) && VolumeDone(ab, i, c) && i != key ensures VolumeDone(ab, i, mid) {
      ClaimKeepsDone(ab, i, key, c, mid, sent);
    }
  }

  lemma {:induction false} VolumeLoopProgress(
    ab: AppBundle, keys: seq<string>, c: Cluster, mode: Mode, trace: seq<Event>, after: Cluster, err: Option<ApiError>)
    requires VolumesReady(ab) && LabelsAgree(ab) && ExistingPresent(ab, c) && !mode.Faulty?
    requires forall k :: k in keys ==> k in Entries(ab.spec.volumes)
    requires forall k :: k in Entries(ab.spec.volumes) && k !in keys ==> VolumeDone(ab, k, c)
    requires Runs(VolumeLoop(ab, keys), c, mode, trace, after, err)
    ensures mode.Truthful? ==> err == None
    ensures err == None ==> VolumesDone(ab, after)
    ensures mode.Truthful? && VolumesDone(ab, c) ==> after == c && Spares(VolumeLoop(ab, keys), trace, Everywhere)
    decreases |keys|
  {
    if keys == [] {
      ReturnedRun(None, c, mode, trace, after, err);
    } else {
      var e, mid, rest := OneVolumeProgress(ab, keys, c, mode, trace, after, err);
      if e.Some? {
        ReturnedRun(e, mid, mode, rest, after, err);
      } else {
        forall k | k in Entries(ab.spec.volumes) && k !in keys[1..] ensures VolumeDone(ab, k, mid) {
          assert k in keys ==> k == keys[0];
        }
        VolumeLoopProgress(ab, keys[1..], mid, mode, rest, after, err);
      }
    }
  }

  /**
   With the existing claims present, the volume reconciler is done whenever it
   returns nil.  On a truthful server it does return nil, and it writes nothing when
   all was done before.
   */
  lemma VolumesRun(ab: AppBundle, c: Cluster, mode: Mode, trace: seq<Event>, after: Cluster, err: Option<ApiError>)
    requires VolumesReady(ab) && LabelsAgree(ab) && ExistingPresent(ab, c) && !mode.Faulty?
    requires Runs(VolumesProg(ab), c, mode, trace, after, err)
    ensures mode.Truthful? ==> err == None
    ensures err == None ==> VolumesDone(ab, after)
    ensures mode.Truthful? && VolumesDone(ab, c) ==> after == c && Spares(VolumesProg(ab), trace, Everywhere)
  {
    VolumeLoopProgress(ab, SortedKeys(Entries(ab.spec.volumes).Keys), c, mode, trace, after, err);
  }

  /** On any server at all, no claim is deleted, and a claim the bundle does not manage only gains label keys. */
  lemma VolumesRunSafe(ab: AppBundle, c: Cluster, mode: Mode, trace: seq<Event>, after: Cluster, err: Option<ApiError>)
    requires VolumesReady(ab) && Runs(VolumesProg(ab), c, mode, trace, after, err)
    ensures ClaimsKept(c, after) && SharedOnlyGain(ab, c, after) && KeepsDefaultKeys(ab, c, after)
  {
    VolumeLoopSafe(ab, SortedKeys(Entries(ab.spec.volumes).Keys), c, mode, trace, after, err);
  }

  // ----- One shared claim -----

  predicate LabelledForAll(ab: AppBundle, keys: seq<string>, k: Key, c: Cluster)
    requires forall key :: key in keys ==> key in Entries(ab.spec.volumes)
  {
    forall key :: key in keys ==> LabelledFor(ab, key, k, c)
  }

  /** On any server: success means that the claim has the wanted label keys; having them all means
      that it is left alone. */
  lemma {:induction false} VolumeLoopAt(
    ab: AppBundle, keys: seq<string>,
    c: Cluster, mode: Mode, trace: seq<Event>, after: Cluster, err: Option<ApiError>, k: Key)
    requires VolumesReady(ab) && forall key :: key in keys ==> key in Entries(ab.spec.volumes)
    requires Runs(VolumeLoop(ab, keys), c, mode, trace, after, err)
    requires k.kind == ClaimKind && !Managed(ab, k)
    ensures err == None ==> LabelledForAll(ab, keys, k, after)
    ensures k in c && LabelledForAll(ab, keys, k, c) ==> k in after && after[k] == c[k]
    ensures k in c && LabelledForAll(ab, keys, k, c) && !mode.Faulty? ==> Spares(VolumeLoop(ab, keys), trace, At(k))
    decreases |keys|
  {
    if keys == [] {
      ReturnedRun(None, c, mode, trace, after, err);
    } else {
      var e, mid, rest := OneVolumeSafe(ab, keys, c, mode, trace, after, err);
      assert HeadAt(ab, keys[0], k, c, mid, e);
      if e.Some? {
        ReturnedRun(e, mid, mode, rest, after, err);
      } else {
        VolumeLoopAt(ab, keys[1..], mid, mode, rest, after, err, k);
        VolumeLoopSafe(ab, keys[1..], mid, mode, rest, after, err);
        assert OnlyGains(mid, after, k);
        forall key | key in keys && err == None ensures LabelledFor(ab, key, k, after) {
          assert key == keys[0] || key in keys[1..];
        }
        forall key | key in keys[1..] && k in c && LabelledForAll(ab, keys, k, c) ensures LabelledFor(ab, key, k, mid) {
          assert key in keys;
        }
      }
    }
  }

  /** The claim has all label keys that the bundle's volumes want on it. */
  ghost predicate Settled(ab: AppBundle, k: Key, c: Cluster) {
    LabelledForAll(ab, SortedKeys(Entries(ab.spec.volumes).Keys), k, c)
  }

  /** A claim that only gains label keys stays settled. */
  lemma SettledStays(ab: AppBundle, k: Key, c: Cluster, after: Cluster)
    requires OnlyGains(c, after, k) && Settled(ab, k, c)
    ensures Settled(ab, k, after)
  {
  }
}
