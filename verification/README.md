# storage-foundation: protocols and their invariants

storage-foundation exports and imports Kubernetes volumes. A DataExport borrows the PersistentVolume behind a user's
PVC, a DataImport turns an upload into a durable snapshot, a VolumeCaptureRequest captures or detaches a volume, a
server pod takes resumable uploads, and collectors delete what is finished. Each of these is a protocol whose safety
rests on the order of a few writes, any of which may be the last one before a crash.

Every protocol here is a state machine: one event per API write or deciding read of a controller, plus crashes, cache
refreshes, users, pods, the binder, the reclaimer and the garbage collectors. `Next` makes one step, `Run` folds a
sequence of events, `Inv` is kept by every step, and the theorems speak about `Run` of an arbitrary sequence. Code that
edits an object or a buffer in place is a class or a method with loops, proved against the function the machine uses.

| file | protocol |
|---|---|
| `pv_loan_objects`, `pv_loan_machine`, `pv_loan_invariant`, `pv_loan_theorems` | the PV loan of a DataExport: take, give back, expire, recover an orphan |
| `pv_loan_answers` | what an undisturbed reconcile of the loan ends with: given back, taken, refused, and the verdict stored |
| `pv_loan_limits`, `pv_loan_runs`, `pv_loan_stale` | when the loan loses the PV or its policy, exactly, and the runs that do |
| `import_lifecycle`, `import_reconciler`, `shared_status`, `status_progress`, `lifecycle_theorems` | the status shared by controller and pod, its phases and its collector |
| `capture_request`, `artifact_machine`, `artifact_theorems`, `artifact_uniqueness`, `artifact_limits`, `artifact_answers` | snapshot capture, the artifact's owners, everyone who could delete it, and which volume it captures |
| `detach` | detach of a PV by a capture request |
| `block_upload`, `filesystem_upload` | the two upload handlers |
| `gc_filter`, `idle_timer` | the collector's filter and the pod's idle timer |
| `lifecycle`, `finalizers`, `bytes`, `options` | phases, conditions, finalizer lists, shared helpers |

## Assumptions

- An update, or a patch with an optimistic lock, commits only on the version it was computed from. A plain merge patch
  changes the fields it names (an owner list is one field) on whatever version is stored.
- What a reconcile reads first includes its controller's own last commit, and reads never go back. In `SharedStatus`
  later reads and the collector's reads may be any version; in `ArtifactMachine` reads of the content may be any version.
- Reads of a VolumeCaptureRequest, and the reads of a detach, are fresh when they are made. Other owners may be added to
  a PV, and anybody may set or clear the ClaimRef of a PV without the detached mark, at any time, also between a detach's
  re-read and its patch. Nobody binds or unbinds a PV that carries the mark (the provisioner keeps away from it), and PVs
  have policy Retain and do not disappear.
- One DataExport per PV. While a PV is on loan nobody else changes its policy, claim or export marks; foreign
  annotations and labels may change at any time, and an administrator may change the policy of a PV that is not lent.
- The owner check runs on the create path only, and the policy that is saved is the one in force at that moment, so no
  exclusion between two exports of one PV is claimed.
- Deletion of an export PVC, a Deployment, a scratch PVC or an artifact is one step. The user PVC is not created again
  under the same name. Annotations are not corrupted by hand, and objects carry no conditions of older releases.
- Artifacts and capture requests are deleted by owner collection, the collector or the end of their import, not by hand.
  An import's request and keeper follow it only when it is gone; a DataImport under foreground deletion, whose request
  may go first, counts as gone from the start of that deletion.
- The capture request finds its target PVC by name, so a request made for one scratch PVC captures whichever scratch PVC
  has that name when it is processed. The upload reports Finished once, for the scratch PVC there is at that moment.
- The hash in generated names is any function of namespace and name.
- The clock of `SharedStatus` counts in the resolution in which a timestamp is stored, a second; `GcFilter` counts
  nanoseconds and truncates as the filter does.

## What turned out false

- A PV is not restored in every run. If the user PVC goes away before the PV is restored, and the controller then
  crashes or its restore patch is refused, the PV keeps policy Retain and all export marks for ever
  (`LostByDeletionBefore`, `LostByDeletionAfter`, `LostWithoutCrash`, `AbandonedForever`). A crash loses the PV exactly
  when the user PVC is gone while the PV still carries the marks (`CrashLosesExactly`); the restore itself loses it
  exactly when the user PVC is gone and the patch does not commit (`RestoreLosesExactly`). A user who deletes the PVC
  only while neither object carries anything of an export loses nothing in any run (`CarefulUserLosesNothing`), and
  while the PV carries the marks a deletion can always lose it (`CarelessCanLose`).
- The saved policy is safe only against reads that do not go back. From any state of the loan in which the controller
  rests, whatever copy it reads next, the saved policy goes wrong exactly when the PV was half returned, the guards passed
  on that copy let the reconcile take it again, and the policy was not Retain (`StaleRestartLosesPolicy`); a run gets
  there with a version the controller stored itself (`StaleRestartIsReachable`).
- A renamed upload has the announced length exactly when its temp file was not begun beside a non-empty target, whose
  size the handler counts in (`RenamedLength`; `ShortRename` replaces three bytes by two). The next offset told to the
  client is right under the same condition (`ToldNextOffset`).
- A 201 for a file does not mean that the target exists: it is answered before the rename (`CreatedRun`), and the target
  is there after the next event exactly if that is a rename that goes through; a failed rename or a restart of the server
  leaves it absent (`CreatedBeforeRename`). An empty PUT then finishes it (`RetryFinishes`).
- A detach request that says Completed need not have detached anything: it has not exactly when the copy of the PV it
  checked had neither a ClaimRef nor the mark (`SkipsExactly`; a run gets there with the claim still alive, `SkippedRun`).
- A detach removes a binding of the PV to another claim exactly when its re-read saw a ClaimRef (`UnbindsExactly`,
  `ForeignRun`), and a PV may come out of it marked and owned but bound (`MarkedButBound`).
- A detach patch does not keep every owner of the PV: it keeps one exactly when the re-read saw it, or saw the
  retainer listed already (`OwnerSurvivesPatch`; `OwnerCanBeLost` loses one).
- An import may leave two contents behind, and may publish one that is no capture of the uploaded volume. Neither happens
  in any run in which no request is deleted while an unpublished import relies on its content (`OneArtifact`,
  `PublishedIsUpload`); after the first such deletion, in whatever run, both can (`DeletionLeadsToTwo`; `TwoContents` gets
  there from the start).
- The collector's list and its re-check agree for every object exactly when the ttl is not negative
  (`ListAgreesWithRecheck`).
- The two readings of a capture request agree exactly where Ready=True always carries the reason Completed
  (`ReadingsAgree`), which every reachable request satisfies (`RequestsAreConsistent`).

## Model

| member | source | states |
|---|---|---|
| PvLoanTheorems.LoanSafety | images/data-manager-controller/internal/controllers/data-export/data_export_resource.go:864-949 | in every run, a PV whose claim names the export PVC is Retain, labelled, and its saved policy is the one before the export; the user PVC is held by our finalizer, and losing the export PVC does not let the volume be reclaimed |
| PvLoanTheorems.DataSurvives | images/data-manager-controller/internal/controllers/data-export/data_export_resource.go:903-949 | the volume is never reclaimed while the user PVC exists |
| PvLoanTheorems.GivenBack | images/data-manager-controller/internal/controllers/data-export/data_export_resource.go:1223-1332 | once our finalizer is gone and the user PVC exists, policy and ClaimRef are those before the export and neither object carries an export mark |
| PvLoanTheorems.LoanImpliesFinalizer | images/data-manager-controller/internal/controllers/data-export/data_export_resource.go:447-493 | a PV on loan implies that the DataExport, unless force-removed, still carries our finalizer |
| PvLoanTheorems.AtMostOneLoan | images/data-manager-controller/internal/controllers/data-export/data_export_resource.go:260-345 | the PV is taken at most once per DataExport, and no rerun marks it inconsistent |
| PvLoanTheorems.SavedPolicyFixed | images/data-manager-controller/internal/controllers/data-export/data_export_resource.go:932-943 | while the marks are on, no event rewrites the saved policy |
| PvLoanTheorems.WholePvComesBack | images/data-manager-controller/internal/controllers/data-export/data_export_resource.go:1077-1131 | with no other writer, the PV after the give-back equals the PV before the loan, foreign keys included |
| PvLoanTheorems.CrashesConverge | images/data-manager-controller/internal/controllers/data-export/data_export_resource.go:1710-1805 | failures and crashes of the give-back never move the objects it will end in |
| PvLoanTheorems.GiveBackEndsInTarget | images/data-manager-controller/internal/controllers/data-export/data_export_resource.go:1223-1332 | an uninterrupted give-back reaches its last step within five writes, with the Deployment and export PVC gone and PV and user PVC restored |
| PvLoanAnswers.LoanEnds | images/data-manager-controller/internal/controllers/data-export/data_export_resource.go:192-295 | in every run, once a lent PV's export is being deleted or its pod has reported idle expiry, the next reconcile that runs through restores policy, ClaimRef and marks, removes export PVC and Deployment, takes our finalizer off, and leaves the object gone, Terminating or Expired with its reason and stamp |
| PvLoanAnswers.ExpiryGivesBack | images/data-manager-controller/internal/controllers/data-export/data_export_resource.go:255-295 | the same for idle expiry from every loan state at rest, lent or not |
| PvLoanAnswers.DeletionGivesBack | images/data-manager-controller/internal/controllers/data-export/data_export_resource.go:192-217 | the same for deletion; the object is gone exactly if ours was the last finalizer |
| PvLoanAnswers.EndsWithoutUser | images/data-manager-controller/internal/controllers/data-export/data_export_resource.go:1223-1332 | with the user PVC gone the rest of the export goes all the same, our finalizer included, and the PV stays as it is |
| PvLoanAnswers.FailedGiveBackIsReported | images/data-manager-controller/internal/controllers/data-export/data_export_resource.go:350-389 | a failed write of the give-back changes nothing and is reported as CleanupFailed, unless the reason is Expired or Deleted already |
| PvLoanAnswers.TakeEndsInLoan | images/data-manager-controller/internal/controllers/data-export/data_export_resource.go:864-949 | an unlent PV in working state is taken: export PVC, marked user PVC, the PV lent to that very export PVC, Deployment |
| PvLoanAnswers.AwaitIsAnswered | images/data-manager-controller/internal/controllers/data-export/data_export_resource.go:1492-1554 | the taking ends Ready exactly if the pod serves, else in DeploymentFailed and Pending |
| PvLoanAnswers.RefusalIsStored | images/data-manager-controller/internal/controllers/data-export/data_export_resource.go:500-598 | a refused taking touches nothing and stores the reason of its first obstacle |
| PvLoanAnswers.TakesUnlessRefused | images/data-manager-controller/internal/controllers/data-export/data_export_resource.go:1676-1708 | a taking starts exactly where no obstacle refuses it |
| PvLoanAnswers.ServingIsAnswered | images/data-manager-controller/internal/controllers/data-export/data_export_resource.go:600-633 | a served export goes back to Pending exactly when its Deployment is gone |
| PvLoanAnswers.ParseExactly | images/data-manager-controller/internal/controllers/data-export/data_export_resource.go:956-1010 | recovery data is accepted only with every mark its export writes, and the policy error is told exactly |
| PvLoanAnswers.LentIsRefusedToOthers | images/data-manager-controller/internal/controllers/data-export/data_export_resource.go:2036-2061 | a lent PV passes the owner check of its own export and of no other |
| PvLoanTheorems.RerunAfterCrashes | images/data-manager-controller/internal/controllers/data-export/data_export_resource.go:1710-1805 | after any failures and crashes one clean rerun ends in the same objects |
| PvLoanTheorems.OrphanEqualsNormal | images/data-manager-controller/internal/controllers/data-export/data_export_resource.go:2098-2175 | orphan recovery and normal cleanup of a lent PV end in the same Deployment, export PVC, PV and user PVC |
| PvLoanTheorems.CleanupNamesMatch | common/names.go:55-96 | the names rebuilt from an orphan's annotations are those everything was created under |
| PvLoanLimits.CrashLosesExactly | images/data-manager-controller/internal/controllers/data-export/data_export_resource.go:1710-1730 | in every reachable state a crash leaves the PV beyond recovery exactly when the user PVC is gone and the PV still carries the marks |
| PvLoanLimits.RestoreLosesExactly | images/data-manager-controller/internal/controllers/data-export/data_export_resource.go:1077-1104 | the restore leaves it so, without a crash, exactly when the user PVC is gone and the guarded patch does not commit |
| PvLoanLimits.CarefulUserLosesNothing | images/data-manager-controller/internal/controllers/data-export/data_export_resource.go:1223-1332 | over every run in which the PVC is deleted only while neither object carries anything of an export, the PV is restored once the finalizer is off, whether or not the PVC is still there |
| PvLoanLimits.CarelessCanLose | images/data-manager-controller/internal/controllers/data-export/data_export_resource.go:2098-2175 | from every reachable state in which the PV carries the marks, some run that begins with the deletion of the user PVC loses the PV |
| PvLoanRuns.LostByDeletionBefore | images/data-manager-controller/internal/controllers/data-export/data_export_resource.go:1784-1801 | a run: the PVC is deleted before the unmark write, which lets it go, and a crash follows |
| PvLoanRuns.LostByDeletionAfter | images/data-manager-controller/internal/controllers/data-export/data_export_resource.go:1784-1801 | a run: the PVC is deleted between the unmark and the restore, and a crash follows |
| PvLoanRuns.LostWithoutCrash | images/data-manager-controller/internal/controllers/data-export/data_export_resource.go:1784-1801 | a run that ends with the deletion, a foreign write of the PV and a refused restore |
| PvLoanLimits.AbandonedForever | images/data-manager-controller/internal/controllers/data-export/data_export_resource.go:1710-1730 | from that state no event restores the policy |
| PvLoanStale.StaleRestartLosesPolicy | images/data-manager-controller/internal/controllers/data-export/data_export_resource.go:932-937 | from every loan state at rest and for every copy read, the saved policy goes wrong exactly when the PV was half returned, the guards on that copy pass and the policy was not Retain |
| PvLoanStale.StaleRestartIsReachable | images/data-manager-controller/internal/controllers/data-export/data_export_resource.go:260-345 | a run into that state in which the copy is a version the controller stored before, and the policy is lost |
| PvLoanInvariant.RunInv | images/data-manager-controller/internal/controllers/data-export/data_export_resource.go:134-345 | the loan invariant holds after every sequence of events |
| PvLoanObjects.LoanRoundTrip | images/data-manager-controller/internal/controllers/data-export/data_export_resource.go:914-943 | lend, rebind, restore is the identity on the whole PV |
| PvLoanObjects.ParseOfMarked | images/data-manager-controller/internal/controllers/data-export/data_export_resource.go:956-1010 | parsing the annotations returns exactly what the loan wrote, and rebuilds its names |
| PvLoanObjects.RestoreOfMarked | images/data-manager-controller/internal/controllers/data-export/data_export_resource.go:1077-1131 | restore gives back the saved policy and removes every mark whatever foreign keys were added |
| PvLoanObjects.MarkUnmark | images/data-manager-controller/internal/controllers/data-export/data_export_resource.go:1037-1075 | unmarking a marked user PVC returns the PVC as it was |
| PvLoanObjects.PvCopy.RestoreReclaimPolicy | images/data-manager-controller/internal/controllers/data-export/data_export_resource.go:1106-1131 | fails without a change on a missing or invalid saved policy, else sets it, and reports a change truthfully |
| PvLoanObjects.PvCopy.RemoveExportMetadata | images/data-manager-controller/internal/controllers/data-export/data_export_resource.go:2063-2096 | removes exactly the export keys and label, and reports whether there were any |
| PvLoanObjects.PvCopy.RestoreOriginalState | images/data-manager-controller/internal/controllers/data-export/data_export_resource.go:1077-1104 | the in-place edit equals Restore, and a patch is needed exactly when something changed |
| PvLoanObjects.UserPvcCopy.RemoveExportMarks | images/data-manager-controller/internal/controllers/data-export/data_export_resource.go:1133-1186 | the in-place edit equals UnmarkExporting, and an update is needed exactly when a mark was left |
| SharedStatus.NoLostUpdate | images/data-manager-controller/internal/controllers/data-import/data_import_resource.go:1068-1118 | over every run of whole-object writes from old reads, the object equals a set of separate registers after their owners' committed writes in order; foreign finalizers are one of them |
| SharedStatus.StepRefinesRegisters | images/data-manager-controller/internal/controllers/data-import/data_import_resource.go:1089-1113 | each single step acts on the object as one register write or none |
| SharedStatus.OwnersOnly | images/data-exporter/internal/repository/k8s.go:90-113 | each register moves only on a commit of its own writer |
| SharedStatus.ServerStateIsMonotone | images/data-exporter/internal/repository/k8s.go:122-136 | the stored server state only climbs over every interleaving, and a committed Finished stays |
| SharedStatus.DataManagerCopy.SetServerState | images/data-exporter/internal/repository/k8s.go:90-113 | an update is sent exactly when the state climbs |
| SharedStatus.DataManagerCopy.UpdateDataManagerCA | images/data-exporter/internal/repository/k8s.go:224-251 | the CA is set and nothing else; an update is sent exactly when it differs |
| StatusProgress.FreshReconcileLands | images/data-manager-controller/internal/controllers/data-import/data_import_resource.go:1068-1128 | a reconcile on the current version without a conflict stores the finalizer and status it computed and leaves the pod's fields; the object is gone exactly if that took its last finalizer |
| StatusProgress.RetryLands | images/data-manager-controller/internal/controllers/data-import/data_import_resource.go:1068-1128 | after a conflict the retry on the version current by then stores the same intent over whatever others have written |
| StatusProgress.FreshWriteLands | images/data-exporter/internal/repository/k8s.go:90-113 | a pod write on the current version sets its register, a server state only upwards |
| StatusProgress.DeletionLands | common/gc/gc_reconciler.go:49-74 | a deletion by a user, or by the collector of what it finds due, removes or marks the object; what is not due is left alone |
| Lifecycle.GuardIsClimb | images/data-exporter/internal/repository/k8s.go:122-136 | the guard admits exactly the climbs of unset, Ready, IdleExpired, Finished |
| LifecycleTheorems.OutcomesAgree | images/data-manager-controller/internal/controllers/data-import/data_import_resource.go:351-398 | in every version of every run the phase, the conditions, the server state and the artifact reference agree |
| LifecycleTheorems.CompletedIsNeverExpired | images/data-manager-controller/internal/controllers/data-import/data_import_resource.go:197-236 | after Completed no version a reconcile may read takes the expiry branch |
| LifecycleTheorems.TerminalIsSticky | images/data-manager-controller/internal/controllers/data-import/data_import_resource.go:322-347 | between any two versions a terminal phase changes only to Terminating and the stamp not at all |
| LifecycleTheorems.StampedOnce | common/conditions.go:143-152 | the stamp is absent before the first terminal version, appears in that write and never changes |
| LifecycleTheorems.CollectedOnlyWhenOverdue | images/data-manager-controller/internal/controllers/gc/gc.go:84-97 | a collected object had a first terminal version whose stamp is more than the ttl ago |
| LifecycleTheorems.StaleCheckHolds | common/gc/gc_reconciler.go:49-74 | an object found reapable in an old copy is still reapable or already being deleted |
| LifecycleTheorems.ImportKeeps | images/data-manager-controller/internal/controllers/data-import/data_import_resource.go:80-263 | a whole reconcile of a consistent import yields a consistent one that only follows in its final fields |
| ImportReconciler.DataImportReconciler.Reconcile | images/data-manager-controller/internal/controllers/data-import/data_import_resource.go:80-263 | from a consistent status a whole reconcile makes a consistent one that keeps the final fields; a finished upload that is captured ends Completed with the artifact and a stamp, a failed capture ends Failed, a serving pod ends Ready and published; the finalizer goes only after a complete teardown |
| ImportReconciler.DataImportReconciler.RunBody | images/data-manager-controller/internal/controllers/data-import/data_import_resource.go:150-263 | the body leaves phase and stamp alone, completes only a finished upload, never expires a completed import, and answers every teardown outcome |
| ImportReconciler.DataImportReconciler.HandleTargetStatus | images/data-manager-controller/internal/controllers/data-import/data_import_resource.go:546-614 | a bound, uploaded PVC completes the import with exactly the captured artifact, or without one where the PVC is the product; every other target and capture outcome has its own condition and error |
| ImportReconciler.DataImportReconciler.FinalizeDataImportStatus | images/data-manager-controller/internal/controllers/data-import/data_import_resource.go:351-398 | a terminal phase stays unless the object is deleted, is stamped once, and brings its conditions; every other phase has its exact condition, Ready against Pending included |
| ImportReconciler.WaitsForPublication | images/data-manager-controller/internal/controllers/data-import/data_import_resource.go:1130-1165 | a publication error is returned for a retry, and an ingress that is not ready just waits |
| LifecycleTheorems.ExportAnswers | images/data-manager-controller/internal/controllers/data-export/data_export_resource.go:192-302 | a deleted or expired DataExport ends Terminating or Expired, and holds its finalizer exactly until it is cleaned |
| LifecycleTheorems.ExportProvides | images/data-manager-controller/internal/controllers/data-export/data_export_resource.go:304-345 | any other is accepted as Pending first, then carries the verdict of its provisioning, Ready exactly when that is True, Failed on an invalid spec |
| Lifecycle.FindAfterStrip | common/conditions.go:116-135 | stripping keeps every allowed verdict and leaves nothing else to be found |
| Lifecycle.StatusRecord.StripConditionsNotIn | common/conditions.go:116-135 | keeps exactly the allowed conditions in order and reports whether any went |
| Lifecycle.StatusRecord.SetCompletionTimestampOnce | common/conditions.go:143-152 | stamps exactly a terminal phase without a stamp |
| Lifecycle.StatusRecord.SetSingleCondition | images/controller/internal/controllers/utils.go:26-30 | afterwards the type is found once with the new verdict and every other type as before |
| Finalizers.Reconciled | common/common.go:104-114 | our finalizer is present exactly if wanted and every other entry stays in order |
| Finalizers.ReconcileFinalizer | common/common.go:104-114 | the code's branches compute Reconciled |
| Finalizers.ContainsString | common/common.go:37-44 | found exactly when the list contains the string |
| Finalizers.RemoveString | common/common.go:46-54 | every other entry, in order |
| CaptureRequest.ReadingsAgree | images/data-manager-controller/internal/controllers/data-import/volume_capture.go:183-217 | ready and failed are never both; together they are terminal exactly where Ready=True means Completed |
| CaptureRequest.CaptureRecord.FinalizeVCR | images/controller/internal/controllers/volumecapturerequest_controller.go:548-583 | stores the verdict, keeps an existing stamp and else stamps now, is terminal for every reader exactly by its verdict, and is well formed exactly when data was set for a success and for nothing else |
| CaptureRequest.CaptureRecord.PatchVCRSnapshotPending | images/controller/internal/controllers/volumecapturerequest_snapshot.go:89-116 | no reader takes the request for finished, and it is well formed exactly when it has no data |
| CaptureRequest.TargetExactly | images/controller/internal/controllers/volumecapturerequest_snapshot.go:133-324 | the first of ten ordered checks that is not passed decides: a retry if it is transient, else a failure for good with the reason of that check; with all passed the content decides |
| ArtifactAnswers.ObstacleIsAnswered | images/controller/internal/controllers/volumecapturerequest_snapshot.go:133-324 | at the machine a transient first obstacle leaves request and controller as they were; one for good is stored with its reason and a stamp |
| ArtifactAnswers.ContentIsMade | images/controller/internal/controllers/volumecapturerequest_snapshot.go:241-293 | with nothing in the way a new content is made of the scratch volume, owned by the retainer, and the request is pending |
| ArtifactAnswers.ContentIsReported | images/controller/internal/controllers/volumecapturerequest_snapshot.go:296-324 | a content without an error that is ready completes the request with it as data, any other leaves it pending |
| ArtifactAnswers.RequestCollectedOnlyWhenOverdue | images/controller/internal/controllers/gc.go:78-132 | while the import exists its request is removed only terminal and more than the ttl after its stamp |
| ArtifactAnswers.OverdueIsCollected | images/controller/internal/controllers/gc.go:78-132 | and one uninterrupted pass of the collector removes an overdue one, nothing else |
| ArtifactAnswers.GoneWithLastOwner | images/controller/internal/controllers/volumecapturerequest_snapshot.go:241-293 | owner collection deletes a content exactly when none of its owners is left |
| CaptureRequest.AppendOwnerRef | images/data-manager-controller/internal/controllers/data-import/object_keeper.go:167-185 | the owner list with the owner listed, unchanged when it was |
| CaptureRequest.OneEntry | images/controller/internal/controllers/volumecapturerequest_controller.go:392-415 | repeating the append changes nothing, and a new owner is listed once |
| ArtifactTheorems.ArtifactSurvives | images/data-manager-controller/internal/controllers/data-import/data_import_resource.go:738-799 | while the import exists, every content for which it deleted a scratch PVC, and the published one, exists, is Retain and is owned by its live keeper |
| ArtifactTheorems.OwnersSurvive | images/data-manager-controller/internal/controllers/data-import/object_keeper.go:151-185 | no step of anyone loses a living owner of a content, or the content |
| ArtifactTheorems.RequestsAreConsistent | images/controller/internal/controllers/volumecapturerequest_controller.go:106-213 | in every run data is set exactly with Ready=True/Completed, the stamp exactly when terminal, and both readings agree |
| ArtifactTheorems.TerminalRequestIsFinal | images/controller/internal/controllers/volumecapturerequest_controller.go:106-118 | a terminal request is never written again, only deleted |
| ArtifactTheorems.CollectorNeverReaps | images/controller/internal/controllers/volumecapturerequest_controller.go:597-637 | the collector's orphan branch never reaches such a content |
| ArtifactUniqueness.OneArtifact | images/data-manager-controller/internal/controllers/data-import/volume_capture.go:159-180 | over every run in which no request is deleted while an unpublished import relies on its content, all contents the import relies on are one |
| ArtifactUniqueness.PublishedIsUpload | images/data-manager-controller/internal/controllers/data-import/data_import_resource.go:730-799 | over the same runs, every content released or published captures the volume the finished upload went into |
| ArtifactLimits.DeletionLeadsToTwo | images/data-manager-controller/internal/controllers/data-import/data_import_resource.go:455-465 | after the first such deletion in any run, some run publishes a second content, captured from a scratch volume that got no upload, while the first is still kept |
| ArtifactLimits.TwoContents | images/data-manager-controller/internal/controllers/data-import/volume_capture.go:159-180 | a run from a new import that ends so, the collector getting to the request as the import takes up its content |
| ArtifactTheorems.RunKeeps | images/data-manager-controller/internal/controllers/data-import/data_import_resource.go:730-799 | the artifact invariant holds after every sequence of events |
| Detach.NameRecordedFirst | images/controller/internal/controllers/volumecapturerequest_controller.go:286-301 | a claim the controller deleted has its PV name recorded, and the record is the claim's volume |
| Detach.ResumesOnSameVolume | images/controller/internal/controllers/volumecapturerequest_controller.go:229-265 | after a crash past the deletion the next reconcile takes up the same existing volume |
| Detach.RetryCompletes | images/controller/internal/controllers/volumecapturerequest_controller.go:309-431 | that reconcile ends Completed: with the volume unbound, marked and owned once if it still has a ClaimRef, else with the volume as it is |
| Detach.StartAnswers | images/controller/internal/controllers/volumecapturerequest_controller.go:218-301 | an open request fails at its start exactly on a refused access, an unbound claim or a missing volume, each with its reason; unanswered reads change nothing |
| Detach.GoneMeanwhileCompletes | images/controller/internal/controllers/volumecapturerequest_controller.go:334-372 | a claim that goes away just before its deletion does not stop the reconcile |
| Detach.DetachIsAtomic | images/controller/internal/controllers/volumecapturerequest_controller.go:376-421 | in every run a volume has the mark exactly if it lists the retainer, lists it at most once, and only the volume the claim names gets either |
| Detach.OutcomesAreHonest | images/controller/internal/controllers/volumecapturerequest_controller.go:218-431 | Completed names the claim's volume, detached exactly unless the completion was a skip; after the claim is deleted the request fails only when access is refused |
| Detach.SkipsExactly | images/controller/internal/controllers/volumecapturerequest_controller.go:309-332 | a reconcile completes at its check exactly if the copy read has no ClaimRef, and has detached nothing exactly if that copy has no mark either |
| Detach.SkippedRun | images/controller/internal/controllers/volumecapturerequest_controller.go:266-332 | from every claim that names an unbound volume, a run to Completed that leaves claim and volume as they were |
| Detach.UnbindsExactly | images/controller/internal/controllers/volumecapturerequest_controller.go:384-421 | the patch removes whatever binding the volume has exactly when the re-read saw one, another claim's included |
| Detach.ForeignRun | images/controller/internal/controllers/volumecapturerequest_controller.go:266-421 | from every claim that names a volume another claim holds, a run that unbinds the other claim and deletes this one |
| Detach.MarkedButBound | images/controller/internal/controllers/volumecapturerequest_controller.go:384-421 | a run after which the volume is marked and bound |
| Detach.TerminalIsFinal | images/controller/internal/controllers/volumecapturerequest_controller.go:106-118 | a terminal request is never written again |
| Detach.OwnerSurvivesPatch | images/controller/internal/controllers/volumecapturerequest_controller.go:384-421 | the unlocked patch keeps an owner exactly when the re-read saw it or saw the retainer listed |
| Detach.OwnerCanBeLost | images/controller/internal/controllers/volumecapturerequest_controller.go:384-421 | a run in which an owner added after the re-read is dropped |
| Detach.VolumeCopy.Detach | images/controller/internal/controllers/volumecapturerequest_controller.go:384-415 | the in-place edit with its owner search is the patched volume |
| BlockUpload.DeviceHoldsCommits | images/data-exporter/internal/import_block/handler.go:153-245 | in every run device[0..written) is the bodies committed since the restart, in order |
| BlockUpload.OneWriter | images/data-exporter/internal/import_block/handler.go:154-166 | at most one request is between acquire and release |
| BlockUpload.OnlyCommitsMove | images/data-exporter/internal/import_block/handler.go:229-236 | written moves only by a commit, by the body's length, or to 0 by a restart |
| BlockUpload.ResumeIsFaithful | images/data-exporter/internal/import_block/handler.go:197-205 | a client that sends source bytes from whatever offset leaves only source[0..written) |
| BlockUpload.CreatedMeansUploaded | images/data-exporter/internal/import_block/handler.go:240-245 | a 201 for the whole source means the device holds it |
| BlockUpload.UploadStays | images/data-exporter/internal/import_block/handler.go:153-245 | later duplicates, broken retries and restarts keep it there |
| BlockUpload.AloneIsMachine | images/data-exporter/internal/import_block/handler.go:153-245 | the concurrent server does with a lone request exactly what PutAlone says |
| BlockUpload.ImportBlockHandler.HandlePutMethod | images/data-exporter/internal/import_block/handler.go:153-245 | a busy server touches nothing; a wrong offset is answered with the right one; a body is taken exactly if it is whole, fits and keeps to the announced total, and the answer names the new offset, Created exactly at the total; the flag is given back |
| BlockUpload.PutAnswers | images/data-exporter/internal/import_block/handler.go:168-245 | for every PUT that meets nobody else, the answer, the offset and the device are given by conditions on the request alone |
| BlockUpload.ToldOffsetCompletes | images/data-exporter/internal/import_block/handler.go:197-245 | a client that goes on at the offset it is told has its source uploaded and gets Created |
| BlockUpload.ImportBlockHandler.Copy | images/data-exporter/internal/import_block/handler.go:222-227 | the copy writes the body's bytes from the offset until body or device ends |
| FilesystemUpload.UploadIsFaithful | images/data-exporter/internal/import_filesystem/handler.go:108-256 | for a path without a target, the temp file is always a prefix of the source and a target is the whole source |
| FilesystemUpload.TargetStays | images/data-exporter/internal/import_filesystem/handler.go:155-176 | a finished target is never lost or replaced |
| FilesystemUpload.FilesChange | images/data-exporter/internal/import_filesystem/handler.go:183-256 | files change only by creating an empty temp file, appending to it, or renaming it |
| FilesystemUpload.RenamedLength | images/data-exporter/internal/import_filesystem/handler.go:155-190 | for every uninterrupted PUT, the file about to be renamed has the announced length exactly when at its checks it did not begin a temp file beside a non-empty target; otherwise it is short by that target |
| FilesystemUpload.ShortRename | images/data-exporter/internal/import_filesystem/handler.go:155-251 | an upload that replaces a file of three bytes by one of two |
| FilesystemUpload.CreatedBeforeRename | images/data-exporter/internal/import_filesystem/handler.go:244-253 | at a 201 the source is in the temp file and the target is absent; after the next event it is there, as the source, exactly if that is a rename that succeeds, and a restart or a failed rename leaves the files as they are |
| FilesystemUpload.CreatedRun | images/data-exporter/internal/import_filesystem/handler.go:108-253 | a one-PUT upload of any source gets to its 201 with the target absent |
| FilesystemUpload.RetryFinishes | images/data-exporter/internal/import_filesystem/handler.go:183-253 | after a lost rename an empty PUT at the reported offset makes the target the source |
| FilesystemUpload.ImportFilesystemHandler.CreateFile | images/data-exporter/internal/import_filesystem/handler.go:108-256 | every PUT is answered, and leaves the files, as Answers says by conditions on the request and the old files; the machine's uninterrupted PUT leaves the same |
| FilesystemUpload.ToldNextOffset | images/data-exporter/internal/import_filesystem/handler.go:155-253 | the next offset told is the temp file's size exactly when the PUT did not begin that file beside a non-empty target, and a PUT at a wrongly told offset is refused with the right one |
| FilesystemUpload.ToldOffsetCompletes | images/data-exporter/internal/import_filesystem/handler.go:155-253 | a client that goes on with the rest of its source at the temp file's size gets Created and the whole source as the target |
| FilesystemUpload.ImportFilesystemHandler.HeadFile | images/data-exporter/internal/import_filesystem/handler.go:275-309 | reports the temp file's size as the next offset, else the target's size, else neither |
| FilesystemUpload.ImportFilesystemHandler.Copy | images/data-exporter/internal/import_filesystem/handler.go:230-235 | the copy appends the bytes to the temp file and touches no other |
| GcFilter.DefaultFilter | common/gc/filter.go:52-96 | lists the expired eligible objects in order, then the overflow of an order by age of the others |
| GcFilter.SelectCounts | common/gc/filter.go:52-78 | an eligible object is taken on its side of the ttl as often as it is there, any other not at all |
| GcFilter.SelectInOrder | common/gc/filter.go:52-78 | what is taken stands at increasing positions of the list |
| GcFilter.ListedExactly | common/gc/filter.go:52-78 | only eligible objects, all expired ones, and nothing else without a cap |
| GcFilter.CappedExactly | common/gc/filter.go:80-96 | counted in the list itself: an expired object is listed as often as it is there, every other is kept or dropped as often as it is there, min(maxCount, n) of every index are kept, and none kept is older than a dropped one |
| GcFilter.UncappedExactly | common/gc/filter.go:52-78 | without a cap exactly the expired objects are listed, each as often as it is there |
| GcFilter.KeptAreYoungest | common/gc/filter.go:80-96 | no kept object is older than a dropped one of its index |
| GcFilter.ListAgreesWithRecheck | images/data-manager-controller/internal/controllers/gc/gc.go:84-105 | everything listed passes the re-check at that or any later clock exactly when the ttl is not negative |
| GcFilter.DueIsListedWithinASecond | images/controller/internal/controllers/gc.go:78-132 | what the re-check would delete is listed within a second |
| IdleTimers.CountersTrackTrace | images/data-exporter/internal/ttl_control/timer.go:96-131 | over every trace the counters tell new bytes truly, the published timestamps are the start and the active ticks, and the only expiry is the first one due |
| IdleTimers.ExpiryMeansSilence | images/data-exporter/internal/ttl_control/timer.go:118-125 | an expiry is a tick more than the ttl after the last active tick or the start, with no byte counted between |
| IdleTimers.PublishedNeverGoesBack | images/data-exporter/internal/ttl_control/timer.go:112-117 | published timestamps never go back and the last is the last activity |
| IdleTimers.IdleTimer.Run | images/data-exporter/internal/ttl_control/timer.go:96-131 | the loop, up to its stop, keeps the timer of the trace and sends the expiry of the trace |

## Left out

- GivenBack: says nothing of a PV whose user PVC is gone; `LostByDeletionAfter` shows why it cannot, and `CarefulUserLosesNothing` says when it need not.
- CarefulUserLosesNothing: its converse, `CarelessCanLose`, begins where the PV is taken; for a deletion between the marking of the user PVC and the taking of the PV only this direction is stated.
- CollectedOnlyWhenOverdue: the ttl is measured from the stamp, which the reconcile takes before it commits the terminal phase; a slow commit shortens the time since the phase could first be read.
- StampedOnce: the stored timestamp's rounding to a second is not modelled beyond counting in seconds.
- ArtifactSurvives: deletion by hand of the artifact, its keeper or the request is excluded.
- DeletionLeadsToTwo: says that some continuation ends so; an import that is about to publish may still do so first.
- PublishedIsUpload: which bytes are on the volume is the upload handlers' part; this result is about the volume only.
- RetryCompletes: assumes policy Retain and a claim that is not created again, as the code's own comments do.
- OutcomesAgree: a DataExport here has a PVC target; for a VirtualDisk the target is validated before the expiry and terminal branches (data_export_resource.go:205-256), so an expired export whose CRD is gone gets a ValidationFailed verdict under phase Expired.
- UploadIsFaithful: a path whose target already exists is covered by `RenamedLength` only.
- DefaultFilter: the saturation of time differences beyond 292 years is not modelled; the library sort is replaced by an insertion sort with the same order and contents.
- The request controller, the detach and the import controller of `ArtifactMachine` are machines on values; their in-memory edits are classes, their API objects are not, so aliasing of the cached objects is not captured.
- The collector, the shared status writers and the PV loan take their retry loops as separate events; the number of retries and the back-off are not modelled.
- VirtualDisk and snapshot targets of a DataExport, and the external provisioner behind them.
- Mutual exclusion of two DataExports of one PV, which the code does not give.
- Corrupted recovery annotations, conditions of older releases, a DataImport or DataExport created again under its name.
- Messages, observed generations and transition times of conditions; file attributes, which follow a rename or a partial upload and cannot change the content.
- Deployments, Services, Ingresses, certificates, tokens and their authorisation; they appear only as steps that succeed or fail.
- The volume populator, the export handlers, the VolumeRestoreRequest controller and the VolumeSnapshot domain controller.
