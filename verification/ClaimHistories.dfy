/** What histories of complete passes, of any number of bundles, do to persistent volume claims. */
module ClaimHistories {
  import opened Options
  import opened KeyOrder
  import opened Bundle
  import opened ExternalSecretCompiler
  import opened Api
  import opened Programs
  import opened ClaimRuns
  import opened Interleaving
  import opened Locality

  /** One complete pass of all six reconcilers of a bundle. */
  datatype BundlePass = BundlePass(ab: AppBundle, order: seq<string>, moves: seq<Move>, end: PassState)

  ghost function Begin(p: BundlePass, grow: nat -> nat, c: Cluster, faulty: bool): PassState
    requires Compilable(p.ab) && Enumerates(p.order, Entries(p.ab.spec.configs).Keys)
  {
    PassState(c, Reconcilers(p.ab, grow, SecretFor(p.ab, p.order)), false, faulty)
  }

  ghost predicate Leads(p: BundlePass, grow: nat -> nat, c: Cluster, after: Cluster, faulty: bool) {
    && Compilable(p.ab) && Enumerates(p.order, Entries(p.ab.spec.configs).Keys)
    && Pass(Begin(p, grow, c, faulty), p.moves, p.end)
    && Finished(p.end) && after == p.end.cluster
  }

  /** Pass i, of whatever bundle, leads from cluster i to cluster i + 1. */
  ghost predicate History(passes: seq<BundlePass>, grow: nat -> nat, clusters: seq<Cluster>, faulty: bool) {
    && |clusters| == |passes| + 1
    && forall i :: 0 <= i < |passes| ==> Leads(passes[i], grow, clusters[i], clusters[i + 1], faulty)
  }

  predicate NobodyManages(passes: seq<BundlePass>, k: Key) {
    forall i :: 0 <= i < |passes| ==> !Managed(passes[i].ab, k)
  }

  /** The volume reconciler of the pass returned nil, as it does in every pass that succeeds. */
  ghost predicate VolumesOk(p: BundlePass) {
    |p.end.procs| > 0 && p.end.procs[0] == Ret(None)
  }

  /** The run of the volume reconciler within a pass. */
  lemma VolumeShare(p: BundlePass, grow: nat -> nat, c: Cluster, after: Cluster, faulty: bool)
    returns (mode: Mode, trace: seq<Event>, err: Option<ApiError>)
    requires Leads(p, grow, c, after, faulty)
    ensures Runs(VolumesProg(p.ab), Restrict(c, {ClaimKind}), mode, trace, Restrict(after, {ClaimKind}), err)
    ensures VolumesOk(p) <==> err == None
    ensures mode.Faulty? ==> faulty
    ensures forall k: Key :: k.kind == ClaimKind && Spares(VolumesProg(p.ab), trace, At(k)) ==>
      PassSpares(Begin(p, grow, c, faulty), p.moves, At(k))
  {
    var s := Begin(p, grow, c, faulty);
    ReconcilersKeep(p.ab, grow, SecretFor(p.ab, p.order));
    ShareIsSolo(s, p.moves, p.end, KINDS, 0);
    CancelledStays(s, p.moves, p.end);
    mode, trace, err := ModeOf(p.end), Share(p.moves, 0, KINDS[0]), p.end.procs[0].err;
    forall k: Key | k.kind == ClaimKind && Spares(VolumesProg(p.ab), trace, At(k))
      ensures PassSpares(s, p.moves, At(k))
    {
      OnlyOwnerWrites(s, p.moves, p.end, KINDS, 0, k);
    }
  }

  lemma GainsLift(c: Cluster, after: Cluster, k: Key)
    requires k.kind == ClaimKind
    ensures OnlyGains(Restrict(c, {ClaimKind}), Restrict(after, {ClaimKind}), k) ==> OnlyGains(c, after, k)
    ensures k in Restrict(c, {ClaimKind}) <==> k in c
    ensures k in c ==> Restrict(c, {ClaimKind})[k] == c[k]
  {
    if k in c {
      assert k in Restrict(c, {ClaimKind});
    }
  }

  lemma SettledIsLocal(ab: AppBundle, k: Key, c: Cluster)
    requires k.kind == ClaimKind
    ensures Settled(ab, k, Restrict(c, {ClaimKind})) == Settled(ab, k, c)
  {
    GainsLift(c, c, k);
    var keys, r := SortedKeys(Entries(ab.spec.volumes).Keys), Restrict(c, {ClaimKind});
    assert forall key :: key in keys ==> LabelledFor(ab, key, k, r) == LabelledFor(ab, key, k, c);
  }

  /** A pass, failed or not, on any server: claims are kept, and those its bundle does not manage only gain labels. */
  lemma PassKeepsClaims(p: BundlePass, grow: nat -> nat, c: Cluster, after: Cluster, faulty: bool, k: Key)
    requires Leads(p, grow, c, after, faulty) && k.kind == ClaimKind && k in c
    ensures k in after
    ensures !Managed(p.ab, k) ==> OnlyGains(c, after, k)
  {
    var mode, trace, err := VolumeShare(p, grow, c, after, faulty);
    VolumesRunSafe(p.ab, Restrict(c, {ClaimKind}), mode, trace, Restrict(after, {ClaimKind}), err);
    GainsLift(c, after, k);
    GainsLift(after, after, k);
  }

  /** A claim the bundle does not manage is settled once its volume reconciler has returned nil, and
      left alone from then on. */
  lemma PassAtClaim(p: BundlePass, grow: nat -> nat, c: Cluster, after: Cluster, faulty: bool, k: Key)
    requires Leads(p, grow, c, after, faulty) && k.kind == ClaimKind && !Managed(p.ab, k)
    ensures VolumesOk(p) ==> Settled(p.ab, k, after)
    ensures k in c && Settled(p.ab, k, c) ==> k in after && after[k] == c[k]
    ensures k in c && Settled(p.ab, k, c) && !faulty ==> PassSpares(Begin(p, grow, c, faulty), p.moves, At(k))
  {
    var mode, trace, err := VolumeShare(p, grow, c, after, faulty);
    VolumeLoopAt(p.ab, SortedKeys(Entries(p.ab.spec.volumes).Keys), Restrict(c, {ClaimKind}), mode, trace,
                 Restrict(after, {ClaimKind}), err, k);
    SettledIsLocal(p.ab, k, c);
    SettledIsLocal(p.ab, k, after);
    GainsLift(c, after, k);
    GainsLift(after, after, k);
  }

  lemma {:induction false} KeptAlong(clusters: seq<Cluster>, i: nat, j: nat, k: Key)
    requires i <= j < |clusters| && k in clusters[i]
    requires forall t :: i <= t < j && k in clusters[t] ==> k in clusters[t + 1]
    ensures k in clusters[j]
    decreases j
  {
    if i < j {
      KeptAlong(clusters, i, j - 1, k);
    }
  }

  lemma {:induction false} GainsAlong(clusters: seq<Cluster>, i: nat, j: nat, k: Key)
    requires i <= j < |clusters|
    requires forall t :: i <= t < j ==> OnlyGains(clusters[t], clusters[t + 1], k)
    ensures OnlyGains(clusters[i], clusters[j], k)
    decreases j
  {
    if i == j {
      OnlyGainsReflexive(clusters[i], k);
    } else {
      GainsAlong(clusters, i, j - 1, k);
      OnlyGainsTransitive(clusters[i], clusters[j - 1], clusters[j], k);
    }
  }

  /** No run of passes over any number of bundles, on any server, deletes a claim; one nobody
      manages only gains labels. */
  lemma ClaimsSurviveEveryRun(
    passes: seq<BundlePass>, grow: nat -> nat, clusters: seq<Cluster>, faulty: bool, i: nat, j: nat, k: Key)
    requires History(passes, grow, clusters, faulty) && i <= j < |clusters|
    requires k.kind == ClaimKind
    ensures k in clusters[i] ==> k in clusters[j]
    ensures NobodyManages(passes, k) ==> OnlyGains(clusters[i], clusters[j], k)
  {
    forall t | i <= t < j
      ensures k in clusters[t] ==> k in clusters[t + 1]
      ensures NobodyManages(passes, k) ==> OnlyGains(clusters[t], clusters[t + 1], k)
    {
      if k in clusters[t] {
        PassKeepsClaims(passes[t], grow, clusters[t], clusters[t + 1], faulty, k);
      }
    }
    if k in clusters[i] {
      KeptAlong(clusters, i, j, k);
    }
    if NobodyManages(passes, k) {
      GainsAlong(clusters, i, j, k);
    }
  }

  ghost predicate SucceededBefore(passes: seq<BundlePass>, t: nat, ab: AppBundle) {
    exists s :: 0 <= s < t && s < |passes| && passes[s].ab == ab && VolumesOk(passes[s])
  }

  lemma SettledAt(
    passes: seq<BundlePass>, grow: nat -> nat, clusters: seq<Cluster>, faulty: bool, t: nat, j: nat, k: Key)
    requires History(passes, grow, clusters, faulty) && t <= j < |passes|
    requires k.kind == ClaimKind && NobodyManages(passes, k) && SucceededBefore(passes, t, passes[j].ab)
    ensures Settled(passes[j].ab, k, clusters[j])
  {
    var s :| 0 <= s < t && s < |passes| && passes[s].ab == passes[j].ab && VolumesOk(passes[s]);
    PassAtClaim(passes[s], grow, clusters[s], clusters[s + 1], faulty, k);
    ClaimsSurviveEveryRun(passes, grow, clusters, faulty, s + 1, j, k);
    SettledStays(passes[j].ab, k, clusters[s + 1], clusters[j]);
  }

  /**
   Shared claims settle.  Once the volume reconciler of every bundle that is still
   reconciled has returned nil once, no later pass changes a claim that none of
   them manages, in any order of the passes; unless the server lies about what it
   holds, no later pass makes a call that could write it.
   */
  lemma {:induction false} SharedClaimSettles(
    passes: seq<BundlePass>, grow: nat -> nat, clusters: seq<Cluster>, faulty: bool, t: nat, j: nat, k: Key)
    requires History(passes, grow, clusters, faulty) && t <= j < |passes|
    requires k.kind == ClaimKind && k in clusters[t] && NobodyManages(passes, k)
    requires forall i :: t <= i < |passes| ==> SucceededBefore(passes, t, passes[i].ab)
    ensures k in clusters[j + 1] && clusters[j + 1][k] == clusters[t][k]
    ensures Leads(passes[j], grow, clusters[j], clusters[j + 1], faulty)
    ensures !faulty ==> PassSpares(Begin(passes[j], grow, clusters[j], faulty), passes[j].moves, At(k))
    decreases j
  {
    if j > t {
      SharedClaimSettles(passes, grow, clusters, faulty, t, j - 1, k);
    }
    SettledAt(passes, grow, clusters, faulty, t, j, k);
    PassAtClaim(passes[j], grow, clusters[j], clusters[j + 1], faulty, k);
  }
}
