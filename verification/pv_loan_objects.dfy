// The objects the PV loan edits, and the pure edits themselves
// (data_export_resource.go, common/names.go).
module PvLoanObjects {
  import opened Options
  import opened Finalizers

  datatype ReclaimPolicy = Retain | Delete | Recycle

  // The reclaim policy as it is spelled in an annotation.
  function PolicyName(p: ReclaimPolicy): string {
    match p
    case Retain => "Retain"
    case Delete => "Delete"
    case Recycle => "Recycle"
  }

  function ParsePolicy(s: string): Option<ReclaimPolicy> {
    if s == "Retain" then Some(Retain)
    else if s == "Delete" then Some(Delete)
    else if s == "Recycle" then Some(Recycle)
    else None
  }

  lemma ParsePolicyName(p: ReclaimPolicy)
    ensures ParsePolicy(PolicyName(p)) == Some(p)
  {
    assert |PolicyName(Retain)| == 6 && PolicyName(Retain)[0] == 'R';
    assert |PolicyName(Delete)| == 6 && PolicyName(Delete)[0] == 'D';
    assert |PolicyName(Recycle)| == 7;
  }

  // Annotation and label keys: the module's own ones and everybody else's.
  datatype AnnotationKey =
    | UserPvcNamespace | UserPvcName
    | StorageManagerNamespace | StorageManagerName
    | TargetKindShort | HashSuffix
    | OriginalReclaimPolicy
    | ForeignAnnotation(key: string)

  datatype LabelKey = DataExporter | DataExporterInconsistent | ForeignLabel(key: string)

  const EXPORT_KEYS: set<AnnotationKey> :=
    {UserPvcNamespace, UserPvcName, StorageManagerNamespace, StorageManagerName,
     TargetKindShort, HashSuffix, OriginalReclaimPolicy}

  const LABEL_ON := "true"

  // Zero is the empty UID.
  type Uid = nat

  datatype ClaimRef = ClaimRef(namespace: string, name: string, uid: Uid)

  datatype PersistentVolume = PersistentVolume(
    policy: ReclaimPolicy,
    claimRef: Option<ClaimRef>,
    annotations: map<AnnotationKey, string>,
    labels: map<LabelKey, string>)

  datatype PvcKey = InProgress | ExportRequest | LegacyExportRequest | ForeignPvcKey(key: string)

  const PVC_KEYS: set<PvcKey> := {InProgress, ExportRequest, LegacyExportRequest}

  datatype UserPvc = UserPvc(
    bound: bool,
    deleting: bool,
    annotations: map<PvcKey, string>,
    finalizers: seq<string>)

  // ---- generated names (names.go). The hash is any function of namespace and name. ----

  type Hash = (string, string) -> string

  datatype Names = Names(targetKindShort: string, hashSuffix: string, deployName: string, exportPvcName: string)

  function DeployNameForHash(targetKindShort: string, hashSuffix: string): string {
    "deploy-for-" + targetKindShort + "-" + hashSuffix
  }

  function ExportPvcNameForHash(targetKindShort: string, hashSuffix: string): string {
    "pvc-for-" + targetKindShort + "-" + hashSuffix
  }

  function NewNames(hash: Hash, targetKindShort: string, namespace: string, name: string): Names {
    var suffix := hash(namespace, name);
    Names(targetKindShort, suffix,
          DeployNameForHash(targetKindShort, suffix), ExportPvcNameForHash(targetKindShort, suffix))
  }

  const KIND_PVC := "pvc"

  predicate IsValidTargetKind(kind: string) {
    kind == KIND_PVC || kind == "vd" || kind == "vs" || kind == "vdsnapshot" || kind == "snap"
  }

  predicate ValidHashAndTarget(hash: Hash, kind: string, suffix: string, namespace: string, name: string) {
    IsValidTargetKind(kind) && suffix == hash(namespace, name)
  }

  // ---- what a DataExport of one user PVC is fixed to ----

  datatype Export = Export(
    hash: Hash,
    controllerNamespace: string,
    namespace: string,          // of the DataExport and of the user PVC
    name: string,               // of the DataExport
    userPvcName: string,
    userUid: Uid)
  {
    function Names(): Names { NewNames(hash, KIND_PVC, namespace, name) }

    function UserRef(): ClaimRef { ClaimRef(namespace, userPvcName, userUid) }

    function ExportRef(uid: Uid): ClaimRef { ClaimRef(controllerNamespace, Names().exportPvcName, uid) }

    // The user PVC has a UID and is not the temporary export PVC.
    predicate WellFormed() {
      userUid != 0 && (namespace != controllerNamespace || userPvcName != Names().exportPvcName)
    }
  }

  // ---- the three edits of the PV ----

  function Lookup<K>(m: map<K, string>, k: K): string {
    if k in m then m[k] else ""
  }

  /** patchPVLabelAnnotationsClaimRef: take the PV over for the export PVC. */
  function Lend(pv: PersistentVolume, e: Export, exportUid: Uid): PersistentVolume {
    PersistentVolume(
      Retain,
      Some(e.ExportRef(exportUid)),
      pv.annotations[
        UserPvcNamespace := e.namespace][
        UserPvcName := e.userPvcName][
        StorageManagerNamespace := e.namespace][
        StorageManagerName := e.name][
        TargetKindShort := e.Names().targetKindShort][
        HashSuffix := e.Names().hashSuffix][
        OriginalReclaimPolicy := PolicyName(pv.policy)],
      pv.labels[DataExporter := LABEL_ON])
  }

  /** recoverUserPVC: point the PV back at the user PVC. */
  function Rebind(pv: PersistentVolume, e: Export): PersistentVolume {
    pv.(claimRef := Some(e.UserRef()))
  }

  /** restoreOriginalPVState: put the saved policy back and drop every export mark; None is the error return. */
  function Restore(pv: PersistentVolume): Option<PersistentVolume> {
    match ParsePolicy(Lookup(pv.annotations, OriginalReclaimPolicy))
    case None => None
    case Some(policy) =>
      Some(pv.(policy := policy,
               annotations := pv.annotations - EXPORT_KEYS,
               labels := pv.labels - {DataExporter}))
  }

  /** handleInconsistentPV: the severity tells whether the claim is in the controller's namespace. */
  function MarkedInconsistent(pv: PersistentVolume, e: Export): PersistentVolume {
    var severity := if pv.claimRef.Some? && pv.claimRef.value.namespace == e.controllerNamespace
                    then "error" else "warning";
    pv.(labels := pv.labels[DataExporterInconsistent := severity])
  }

  // ---- reading the recovery data back ----

  datatype RecoveryInfo = RecoveryInfo(
    userPvcNamespace: string, userPvcName: string,
    exportNamespace: string, exportName: string,
    targetKindShort: string, hashSuffix: string,
    originalPolicy: ReclaimPolicy)

  datatype ParseError = InvalidOriginalPolicy | OtherMismatch

  /** parsePVRecoveryInfo, with the source's order of checks. */
  function ParseRecoveryInfo(hash: Hash, pv: PersistentVolume, namespace: string, name: string)
    : Result<RecoveryInfo, ParseError>
  {
    var a := pv.annotations;
    match ParsePolicy(Lookup(a, OriginalReclaimPolicy))
    case None => Err(InvalidOriginalPolicy)
    case Some(policy) =>
      if Lookup(pv.labels, DataExporter) != LABEL_ON then Err(OtherMismatch)
      else if Lookup(a, StorageManagerName) != name then Err(OtherMismatch)
      else if Lookup(a, StorageManagerNamespace) != namespace then Err(OtherMismatch)
      else if Lookup(a, UserPvcNamespace) != namespace then Err(OtherMismatch)
      else if !ValidHashAndTarget(hash, Lookup(a, TargetKindShort), Lookup(a, HashSuffix), namespace, name)
      then Err(OtherMismatch)
      else Ok(RecoveryInfo(namespace, Lookup(a, UserPvcName), namespace, name,
                           Lookup(a, TargetKindShort), Lookup(a, HashSuffix), policy))
  }

  /** validatePVNotOwnedByAnotherDataExport */
  predicate NotOwnedByAnother(pv: PersistentVolume, namespace: string, name: string) {
    var a := pv.annotations;
    if StorageManagerName !in a && StorageManagerNamespace !in a then true
    else if StorageManagerName !in a || StorageManagerNamespace !in a then false
    else a[StorageManagerName] == name && a[StorageManagerNamespace] == namespace
  }

  /** ensureExportPVReady: annotations valid and the spec already in its lent state. */
  predicate ReadyForExport(pv: PersistentVolume, e: Export) {
    && ParseRecoveryInfo(e.hash, pv, e.namespace, e.name).Ok?
    && pv.policy == Retain
    && pv.claimRef.Some?
    && pv.claimRef.value.name == e.Names().exportPvcName
    && pv.claimRef.value.namespace == e.controllerNamespace
  }

  /** validateUserPVCInWorkingState, for a user PVC whose volumeName is this PV. */
  predicate WorkingState(user: UserPvc, pv: PersistentVolume, e: Export) {
    && user.bound
    && pv.claimRef.Some?
    && pv.claimRef.value.name == e.userPvcName
    && pv.claimRef.value.namespace == e.namespace
    && !(e.userUid != 0 && pv.claimRef.value.uid != 0 && e.userUid != pv.claimRef.value.uid)
  }

  // ---- the two edits of the user PVC ----

  /** ensureUserPVCExportingAnnotationAndFinalizer */
  function MarkExporting(user: UserPvc): UserPvc {
    user.(annotations := user.annotations[InProgress := LABEL_ON],
          finalizers := if FINALIZER in user.finalizers then user.finalizers else user.finalizers + [FINALIZER])
  }

  /** removeUserPVCExportingAnnotationsAndFinalizer */
  function UnmarkExporting(user: UserPvc): UserPvc {
    user.(annotations := user.annotations - PVC_KEYS,
          finalizers := Without(user.finalizers, FINALIZER))
  }

  predicate Unmarked(user: UserPvc) {
    user.annotations.Keys !! PVC_KEYS && FINALIZER !in user.finalizers
  }

  /** No export annotation and no export label. */
  predicate NoMarks(pv: PersistentVolume) {
    pv.annotations.Keys !! EXPORT_KEYS && DataExporter !in pv.labels
  }

  /** The marks exactly as Lend writes them when the policy was `original`. */
  predicate Marked(pv: PersistentVolume, e: Export, original: ReclaimPolicy) {
    var a := pv.annotations;
    && EXPORT_KEYS <= a.Keys
    && a[UserPvcNamespace] == e.namespace
    && a[UserPvcName] == e.userPvcName
    && a[StorageManagerNamespace] == e.namespace
    && a[StorageManagerName] == e.name
    && a[TargetKindShort] == e.Names().targetKindShort
    && a[HashSuffix] == e.Names().hashSuffix
    && a[OriginalReclaimPolicy] == PolicyName(original)
    && DataExporter in pv.labels && pv.labels[DataExporter] == LABEL_ON
  }

  /** Nobody but the controller touched the PV: only foreign annotations and labels differ. */
  predicate SameButForeign(a: PersistentVolume, b: PersistentVolume) {
    && a.policy == b.policy && a.claimRef == b.claimRef
    && (forall k :: k in EXPORT_KEYS ==> (k in a.annotations <==> k in b.annotations))
    && (forall k :: k in EXPORT_KEYS && k in a.annotations ==> a.annotations[k] == b.annotations[k])
    && (DataExporter in a.labels <==> DataExporter in b.labels)
    && (DataExporter in a.labels ==> a.labels[DataExporter] == b.labels[DataExporter])
    && (DataExporterInconsistent in a.labels <==> DataExporterInconsistent in b.labels)
  }

  lemma LendMarks(pv: PersistentVolume, e: Export, exportUid: Uid)
    ensures Marked(Lend(pv, e, exportUid), e, pv.policy)
  {}

  /** Parsing returns exactly what the patch wrote, and the rebuilt names are the ones used at creation. */
  lemma ParseOfMarked(pv: PersistentVolume, e: Export, original: ReclaimPolicy)
    requires Marked(pv, e, original)
    ensures ParseRecoveryInfo(e.hash, pv, e.namespace, e.name) ==
            Ok(RecoveryInfo(e.namespace, e.userPvcName, e.namespace, e.name,
                            e.Names().targetKindShort, e.Names().hashSuffix, original))
    ensures DeployNameForHash(pv.annotations[TargetKindShort], pv.annotations[HashSuffix]) == e.Names().deployName
    ensures ExportPvcNameForHash(pv.annotations[TargetKindShort], pv.annotations[HashSuffix]) == e.Names().exportPvcName
  {
    ParsePolicyName(original);
  }

  /** Lend, rebind, restore is the identity on the whole PV, its maps included. */
  lemma LoanRoundTrip(pv: PersistentVolume, e: Export, exportUid: Uid)
    requires NoMarks(pv) && pv.claimRef == Some(e.UserRef())
    ensures Restore(Rebind(Lend(pv, e, exportUid), e)) == Some(pv)
  {
    ParsePolicyName(pv.policy);
    var lent := Lend(pv, e, exportUid);
    assert lent.annotations - EXPORT_KEYS == pv.annotations;
    assert lent.labels - {DataExporter} == pv.labels;
  }

  /** Restoring a marked PV gives the saved policy and removes every mark, whatever foreign keys it gained. */
  lemma RestoreOfMarked(pv: PersistentVolume, e: Export, original: ReclaimPolicy)
    requires Marked(pv, e, original)
    ensures Restore(pv).Some? && NoMarks(Restore(pv).value) && Restore(pv).value.policy == original
    ensures Restore(pv).value.claimRef == pv.claimRef
    ensures Restore(pv).value != pv
    ensures DataExporterInconsistent in Restore(pv).value.labels <==> DataExporterInconsistent in pv.labels
  {
    ParsePolicyName(original);
  }

  lemma MarkUnmark(user: UserPvc)
    ensures Unmarked(UnmarkExporting(user))
    ensures Unmarked(user) ==> UnmarkExporting(MarkExporting(user)) == user
  {
    WithoutAppend(user.finalizers, [FINALIZER], FINALIZER);
    if Unmarked(user) {
      assert (user.annotations[InProgress := LABEL_ON]) - PVC_KEYS == user.annotations;
    }
  }

  // ---- the same edits in place, as the controller makes them on its copies ----

  class PvCopy {
    var policy: ReclaimPolicy
    var claimRef: Option<ClaimRef>
    var annotations: map<AnnotationKey, string>
    var labels: map<LabelKey, string>

    function Value(): PersistentVolume
      reads this
    {
      PersistentVolume(policy, claimRef, annotations, labels)
    }

    constructor (pv: PersistentVolume)
      ensures Value() == pv
    {
      policy, claimRef, annotations, labels := pv.policy, pv.claimRef, pv.annotations, pv.labels;
    }

    /** restorePVReclaimPolicy: error and no change when the saved policy is missing or invalid. */
    method RestoreReclaimPolicy() returns (changed: bool, failed: bool)
      modifies this`policy
      ensures failed <==> ParsePolicy(Lookup(annotations, OriginalReclaimPolicy)).None?
      ensures failed ==> policy == old(policy)
      ensures !failed ==> PolicyName(policy) == annotations[OriginalReclaimPolicy]
      ensures changed <==> policy != old(policy)
    {
      changed, failed := false, true;
      if OriginalReclaimPolicy !in annotations || annotations[OriginalReclaimPolicy] == "" {
        return;
      }
      match ParsePolicy(annotations[OriginalReclaimPolicy]) {
        case None =>
        case Some(original) =>
          failed := false;
          if policy != original {
            policy := original;
            changed := true;
          }
      }
    }

    /** removePVExportMetadata: deletes key by key and reports whether anything was there. */
    method RemoveExportMetadata() returns (changed: bool)
      modifies this`annotations, this`labels
      ensures annotations == old(annotations) - EXPORT_KEYS
      ensures labels == old(labels) - {DataExporter}
      ensures NoMarks(Value())
      ensures changed <==> !NoMarks(old(Value()))
    {
      changed := false;
      var keysToRemove := [UserPvcNamespace, UserPvcName, StorageManagerNamespace, StorageManagerName,
                           TargetKindShort, HashSuffix, OriginalReclaimPolicy];
      ghost var done: set<AnnotationKey> := {};
      for i := 0 to |keysToRemove|
        invariant done == set k | k in keysToRemove[..i]
        invariant labels == old(labels)
        invariant annotations == old(annotations) - done
        invariant changed <==> old(annotations).Keys * done != {}
      {
        var key := keysToRemove[i];
        assert keysToRemove[..i + 1] == keysToRemove[..i] + [key];
        if key in annotations {
          annotations := annotations - {key};
          changed := true;
        }
        done := done + {key};
      }
      assert keysToRemove[..|keysToRemove|] == keysToRemove;
      assert done == EXPORT_KEYS;
      if DataExporter in labels {
        labels := labels - {DataExporter};
        changed := true;
      }
    }

    /** restoreOriginalPVState up to its API write: what will be patched, and whether a patch is needed. */
    method RestoreOriginalState() returns (needUpdate: bool, failed: bool)
      modifies this
      ensures failed <==> Restore(old(Value())).None?
      ensures !failed ==> Some(Value()) == Restore(old(Value()))
      ensures !failed ==> (needUpdate <==> Value() != old(Value()))
    {
      ghost var before := Value();
      needUpdate, failed := RestoreReclaimPolicy();
      if failed {
        return;
      }
      ghost var original :=
        ParsePolicy(Lookup(annotations, OriginalReclaimPolicy)).value;
      ParsePolicyName(policy);
      assert policy == original;
      var removed := RemoveExportMetadata();
      assert OriginalReclaimPolicy in before.annotations;
      if removed {
        needUpdate := true;
      }
    }
  }

  class UserPvcCopy {
    var annotations: map<PvcKey, string>
    var finalizers: seq<string>

    constructor (user: UserPvc)
      ensures annotations == user.annotations && finalizers == user.finalizers
    {
      annotations, finalizers := user.annotations, user.finalizers;
    }

    /** The body of removeUserPVCExportingAnnotationsAndFinalizer: loop over every spelling, then the finalizer. */
    method RemoveExportMarks(user: UserPvc) returns (needUpdate: bool)
      requires annotations == user.annotations && finalizers == user.finalizers
      modifies this
      ensures annotations == UnmarkExporting(user).annotations
      ensures finalizers == UnmarkExporting(user).finalizers
      ensures needUpdate <==> !Unmarked(user)
    {
      var hasAnnotation := false;
      var toRemove := [InProgress, ExportRequest, LegacyExportRequest];
      ghost var done: set<PvcKey> := {};
      for i := 0 to |toRemove|
        invariant done == set k | k in toRemove[..i]
        invariant finalizers == user.finalizers
        invariant annotations == user.annotations - done
        invariant hasAnnotation <==> user.annotations.Keys * done != {}
      {
        var key := toRemove[i];
        assert toRemove[..i + 1] == toRemove[..i] + [key];
        if key in annotations {
          hasAnnotation := true;
          annotations := annotations - {key};
        }
        done := done + {key};
      }
      assert toRemove[..|toRemove|] == toRemove;
      assert done == PVC_KEYS;
      var hasFinalizer := ContainsString(finalizers, FINALIZER);
      if hasFinalizer {
        finalizers := RemoveString(finalizers, FINALIZER);
      }
      needUpdate := hasAnnotation || hasFinalizer;
    }
  }
}
