/** CreateExpectedPVC and GetPVCLabels. */
module ClaimCompiler {
  import opened Options
  import opened Bundle
  import opened DeepDerivative
  import opened DeploymentCompiler

  /** Volumes handled by ReconcileExistingPVC, nothing at all, or ReconcilePVC, in the order the code tests. */
  datatype VolumeKind = Existing | OnHost | InMemory | Claimed

  function KindOf(v: Volume): VolumeKind {
    if v.existingClaim.Some? then Existing
    else if v.hostPath.Some? then OnHost
    else if UsesEmptyDir(v) then InMemory
    else Claimed
  }

  /** A claimed volume's size is read without a nil test. */
  predicate ClaimDereferenceable(v: Volume) {
    KindOf(v) == Claimed ==> v.size.Some?
  }

  function EncodeClaim(v: Volume): Value
    requires v.size.Some?
  {
    Struct([
      Slice([Str("ReadWriteOnce")]),
      Ptr(if v.storageClass.Some? then Some(Str(v.storageClass.value)) else None),
      Struct([Map(map["storage" := Str(v.size.value)])])])
  }

  const ZERO_CLAIM := Struct([Slice([]), Ptr(None), Struct([Map(map[])])])

  lemma NoClaimNeverMatches(v: Volume)
    requires v.size.Some?
    ensures !Derives(EncodeClaim(v), ZERO_CLAIM)
  {
    assert !Derives(EncodeClaim(v).fields[0], ZERO_CLAIM.fields[0]);
  }

  predicate ShouldBackUp(ab: AppBundle, v: Volume) {
    ab.spec.backup.Some? && v.backup != Some(false)
  }

  function BackupLabels(ab: AppBundle): map<string, string> {
    map[
      "recurring-job.longhorn.io/" + ab.name + "-" + ab.namespace := "enabled",
      "recurring-job.longhorn.io/source" := "enabled",
      "recurring-job-group.longhorn.io/default" := "enabled"
    ]
  }

  function ClaimLabels(ab: AppBundle, v: Volume): map<string, string> {
    if ShouldBackUp(ab, v) then DefaultLabels(ab) + BackupLabels(ab) else DefaultLabels(ab)
  }

  method GetPVCLabels(ab: AppBundle, v: Volume) returns (labels: map<string, string>)
    ensures labels == ClaimLabels(ab, v)
  {
    labels := SetDefaultAppBundleLabels(ab, map[]);
    assert map[] + DefaultLabels(ab) == DefaultLabels(ab);
    if ShouldBackUp(ab, v) {
      ghost var before := labels;
      labels := labels["recurring-job.longhorn.io/" + ab.name + "-" + ab.namespace := "enabled"];
      labels := labels["recurring-job.longhorn.io/source" := "enabled"];
      labels := labels["recurring-job-group.longhorn.io/default" := "enabled"];
      assert labels == before + BackupLabels(ab);
    }
  }

  /** The bundle's own recurring job, the marker of a source and the default group. */
  function BackupKeys(ab: AppBundle): set<string> {
    {"recurring-job.longhorn.io/" + ab.name + "-" + ab.namespace,
     "recurring-job.longhorn.io/source", "recurring-job-group.longhorn.io/default"}
  }

  /** The bundle backs up and the volume does not opt out. */
  predicate BackedUp(ab: AppBundle, v: Volume) {
    ab.spec.backup.Some? && !(v.backup.Some? && !v.backup.value)
  }

  /** A claim names its bundle; a backup adds its three labels and touches no other. */
  lemma ClaimLabelsMeaning(ab: AppBundle, v: Volume)
    ensures "appbundle" in ClaimLabels(ab, v) && ClaimLabels(ab, v)["appbundle"] == ab.name
    ensures BackedUp(ab, v) ==>
      forall k :: k in BackupKeys(ab) ==> k in ClaimLabels(ab, v) && ClaimLabels(ab, v)[k] == "enabled"
    ensures forall k :: k !in BackupKeys(ab) || !BackedUp(ab, v) ==>
      (k in ClaimLabels(ab, v) <==> k in DefaultLabels(ab))
      && (k in ClaimLabels(ab, v) ==> ClaimLabels(ab, v)[k] == DefaultLabels(ab)[k])
  {
    OwnLabelsWin(ab);
    assert DefaultLabels(ab)[APP_BUNDLE_SELECTOR] == ab.name;
    BackupLabelsApart(ab);
  }

  lemma BackupLabelsApart(ab: AppBundle)
    ensures APP_BUNDLE_SELECTOR !in BackupLabels(ab)
    ensures forall k :: k in BackupLabels(ab) ==> BackupLabels(ab)[k] == "enabled"
  {
    assert APP_BUNDLE_SELECTOR[0] == 'a';
    var job := "recurring-job.longhorn.io/" + ab.name + "-" + ab.namespace;
    assert job[0] == 'r' && "recurring-job.longhorn.io/source"[0] == 'r'
      && "recurring-job-group.longhorn.io/default"[0] == 'r';
  }

  /**
   Claim agreement.  The Deployment tests HostPath, then EmptyDir, and names the
   claim by ExistingClaim; the volume reconciler tests ExistingClaim first.  A
   pod volume that mounts the claim "bundle-key" for a volume without an existing
   claim is exactly one the reconciler creates or updates under that name.
   */
  lemma ClaimsAgree(ab: AppBundle, key: string, v: Volume)
    ensures (KindOf(v) == Claimed)
        <==> (v.existingClaim == None && VolumeOf(ab.name, key, v).source == ClaimSource(Dashed(ab.name, key)))
    ensures v.existingClaim == None && VolumeOf(ab.name, key, v).source.ClaimSource?
        ==> VolumeOf(ab.name, key, v).source.claimName == Dashed(ab.name, key)
    ensures KindOf(v) == Existing && VolumeOf(ab.name, key, v).source.ClaimSource?
        ==> VolumeOf(ab.name, key, v).source.claimName == v.existingClaim.value
  {
  }

  /** The claims the reconciler creates or updates, and those the pod mounts without an existing claim. */
  function ReconciledClaims(ab: AppBundle): set<string> {
    set k | k in Entries(ab.spec.volumes) && KindOf(Entries(ab.spec.volumes)[k]) == Claimed :: Dashed(ab.name, k)
  }

  ghost function MountedClaims(ab: AppBundle): set<string> {
    set k | k in Entries(ab.spec.volumes)
      && Entries(ab.spec.volumes)[k].existingClaim == None
      && VolumeOf(ab.name, k, Entries(ab.spec.volumes)[k]).source.ClaimSource?
      :: VolumeOf(ab.name, k, Entries(ab.spec.volumes)[k]).source.claimName
  }

  lemma ClaimSetsEqual(ab: AppBundle)
    ensures ReconciledClaims(ab) == MountedClaims(ab)
  {
    forall name | name in ReconciledClaims(ab) ensures name in MountedClaims(ab) {
      var k :| k in Entries(ab.spec.volumes) && KindOf(Entries(ab.spec.volumes)[k]) == Claimed
        && name == Dashed(ab.name, k);
      ClaimsAgree(ab, k, Entries(ab.spec.volumes)[k]);
      assert VolumeOf(ab.name, k, Entries(ab.spec.volumes)[k]).source.claimName == name;
    }
    forall name | name in MountedClaims(ab) ensures name in ReconciledClaims(ab) {
    }
  }
}
