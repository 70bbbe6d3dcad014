// The status a reconcile computes, for DataImport (data_import_resource.go) and DataExport
// (data_export_resource.go), before it is persisted.
module ImportLifecycle {
  import opened Options
  import opened Lifecycle

  // The status fields only the controller writes.
  datatype Controlled = Controlled(
    ready: Option<Verdict>,
    uploaded: Option<Verdict>,
    completed: Option<Verdict>,
    phase: Phase,
    completion: Option<int>,
    publicUrl: string,
    volumeMode: string,
    data: Option<string>)

  // What a reconcile sees of the object: its own fields, the pod's signal and the metadata it cares about.
  datatype Seen = Seen(deleting: bool, holds: bool, server: ServerState, ctl: Controlled)

  datatype Kind = ImportKind | ExportKind

  datatype TargetStatus = TUnknown | TPending | TNeedConsumer | TReady | TFailed | TError

  datatype Capability = Capable | NotCapable | CapabilityUnknown

  // What ensureDataArtifact meets on its way.
  datatype Capture = ClassUnresolved | CaptureApiError | KeeperWait | CaptureFailed | CaptureWaiting | Captured(artifact: string)

  datatype Teardown = TeardownError | NotGone | AllGone

  datatype Ingress = IngressError | IngressNotReady | IngressReady

  // Everything a reconcile learns from the rest of the cluster.
  datatype Inputs = Inputs(
    createPvc: bool, specOk: bool, capability: Capability, ensureFails: bool,
    target: TargetStatus, volumeMode: Option<string>, jobFails: bool, capture: Capture,
    publish: bool, publishFails: bool, publicUrl: string, ingress: Ingress,
    teardown: Teardown, pvcReleaseFails: bool,
    // DataExport: the verdict its provisioning ends with, and how its cleanup ends
    exportVerdict: Verdict, exportTerminal: bool, exportCleaned: bool)

  // InvalidSpec: a DataExport's terminal error, which has its own verdict already.
  datatype Failure = NoError | CleanupFailed | TargetFailed(terminal: bool) | InvalidSpec | OtherError {
    predicate IsTerminal() {
      this == TargetFailed(true) || InvalidSpec?
    }
  }

  // The in-memory object while a reconcile body runs.
  datatype Draft = Draft(ctl: Controlled, holds: bool, failure: Failure)

  predicate IsTrue(v: Option<Verdict>) {
    v.Some? && v.value.status == True
  }

  predicate ReadyIs(c: Controlled, reason: Reason) {
    c.ready == Some(Verdict(False, reason))
  }

  function NotReady(c: Controlled, reason: Reason): Controlled {
    c.(ready := Some(Verdict(False, reason)))
  }

  function Complete(c: Controlled): Controlled {
    c.(completed := Some(Verdict(True, RCompleted)))
  }

  /** isDataImportExpired and isDataExportExpired */
  predicate IsExpired(server: ServerState, c: Controlled) {
    server == IdleExpired || ReadyIs(c, RExpired)
  }

  // ---- the DataImport body ----

  function WithBaseConditions(c: Controlled): Controlled {
    c.(ready := if c.ready.None? then Some(Verdict(False, RPending)) else c.ready,
       completed := if c.completed.None? then Some(Verdict(False, RInProgress)) else c.completed)
  }

  /** ensureDataArtifact */
  function EnsureDataArtifact(c: Controlled, capture: Capture): (Controlled, Failure) {
    match capture
    case ClassUnresolved => (c, TargetFailed(false))
    case CaptureApiError => (c, OtherError)
    case KeeperWait => (c, NoError)
    case CaptureFailed => (c, TargetFailed(true))
    case CaptureWaiting => (NotReady(c, RPending), NoError)
    case Captured(artifact) => (Complete(c.(data := Some(artifact))), NoError)
  }

  /** handleTargetStatus (PopulateData) and handlePVCImportStatus (CreatePVC) */
  function HandleTarget(c: Controlled, i: Inputs): (Controlled, Failure) {
    if i.target == TError then (c, OtherError)
    else if i.volumeMode.None? && !i.createPvc then (c, OtherError)
    else
      var c := if i.volumeMode.Some? then c.(volumeMode := i.volumeMode.value) else c;
      match i.target
      case TReady =>
        if !IsTrue(c.uploaded) then (NotReady(c, RPending), NoError)
        else if i.createPvc then (Complete(c), NoError)
        else EnsureDataArtifact(c, i.capture)
      case TPending => (NotReady(c, RPVCCreated), NoError)
      case TNeedConsumer => if i.jobFails then (c, OtherError) else (NotReady(c, RPVCCreated), NoError)
      case TFailed => (c, TargetFailed(false))
      case _ => (c, NoError)
  }

  /** ensureTarget: ensureSnapshotImportTarget or ensurePVCImportTarget */
  function EnsureTarget(c: Controlled, i: Inputs): (Controlled, Failure) {
    if i.createPvc then
      if IsTrue(c.completed) then (c, NoError)
      else if !i.specOk then (c, TargetFailed(true))
      else if i.ensureFails then (c, OtherError)
      else HandleTarget(c, i)
    else if c.data.Some? then (Complete(c), NoError)
    else if !i.specOk then (c, TargetFailed(true))
    else if i.capability != Capable then (c, TargetFailed(i.capability == NotCapable))
    else if i.ensureFails then (c, OtherError)
    else HandleTarget(c, i)
  }

  /** updateReadiness */
  function UpdateReadiness(c: Controlled, server: ServerState, i: Inputs): (Controlled, Failure) {
    if IsTrue(c.uploaded) || server != ServerReady then (c, NoError)
    else if i.publish && i.ingress == IngressError then (c, OtherError)
    else if i.publish && i.ingress == IngressNotReady then (c, NoError)
    else (c.(ready := Some(Verdict(True, RServerReady))), NoError)
  }

  function ImportPipeline(s: Seen, i: Inputs): Draft {
    var c0 := WithBaseConditions(s.ctl);
    var c1 := if s.server == Finished then c0.(uploaded := Some(Verdict(True, RUploadFinished))) else c0;
    var (c2, f2) := EnsureTarget(c1, i);
    if f2 != NoError then Draft(c2, true, f2)
    else if i.publishFails then Draft(c2, true, OtherError)
    else
      var c3 := c2.(publicUrl := if i.publish then i.publicUrl else "");
      var (c4, f4) := UpdateReadiness(c3, s.server, i);
      Draft(c4, true, f4)
  }

  function ImportBody(s: Seen, i: Inputs): Draft {
    var c := WithBaseConditions(s.ctl);
    if s.deleting then
      var d := NotReady(c, RDeleted);
      if i.teardown == TeardownError then Draft(d, s.holds, CleanupFailed)
      else if i.teardown == NotGone then Draft(d.(publicUrl := ""), s.holds, NoError)
      else if i.pvcReleaseFails then Draft(d.(publicUrl := ""), s.holds, CleanupFailed)
      else Draft(d.(publicUrl := ""), false, NoError)
    else if IsExpired(s.server, c) then
      var d := NotReady(c, RExpired);
      if i.teardown == TeardownError then Draft(d, s.holds, CleanupFailed)
      else Draft(d.(publicUrl := ""), s.holds, NoError)
    else if c.phase.IsTerminal() && c.phase != Expired then Draft(c, s.holds, NoError)
    else ImportPipeline(s, i)
  }

  // ---- the DataExport body, as far as the status goes: any verdict but Expired may come out of provisioning ----

  function ExportBody(s: Seen, i: Inputs): Draft {
    var c := s.ctl;
    if s.deleting then Draft(c, s.holds && !i.exportCleaned, if i.exportCleaned then NoError else CleanupFailed)
    else if IsExpired(s.server, c) then
      Draft(NotReady(c, RExpired), s.holds && !i.exportCleaned, if i.exportCleaned then NoError else CleanupFailed)
    else if c.phase.IsTerminal() then Draft(c, s.holds, NoError)
    else if c.ready.None? && !i.exportTerminal then Draft(NotReady(c, RPending), true, NoError)
    else
      var verdict := if i.exportTerminal then Verdict(False, RValidationFailed)
                     else if i.exportVerdict.reason == RExpired then Verdict(False, RPending)
                     else i.exportVerdict;
      Draft(c.(ready := Some(verdict), publicUrl := i.publicUrl,
               volumeMode := if i.volumeMode.Some? then i.volumeMode.value else c.volumeMode),
            s.holds, if i.exportTerminal then InvalidSpec else NoError)
  }

  // ---- the deferred block ----

  function MutateReadyByErr(c: Controlled, failure: Failure): Controlled {
    match failure
    case CleanupFailed =>
      if c.ready.Some? && (c.ready.value.reason == RExpired || c.ready.value.reason == RDeleted) then c
      else NotReady(c, RCleanupFailed)
    case TargetFailed(_) => NotReady(c, RTargetFailed)
    case _ => c
  }

  /** computeDataImportPhase; a DataExport never has Completed=True or UploadFinished=True. */
  function ComputePhase(deleting: bool, server: ServerState, c: Controlled, failure: Failure): Phase {
    if deleting then Terminating
    else if c.phase.IsTerminal() then c.phase
    else if IsTrue(c.completed) then Completed
    else if IsExpired(server, c) then Expired
    else if failure.IsTerminal() then Failed
    else if IsTrue(c.ready) || IsTrue(c.uploaded) then Ready
    else Pending
  }

  /** The terminal conditions a phase brings with it (finalizeDataImportStatus). */
  function TerminalConditions(kind: Kind, c: Controlled, phase: Phase): Controlled {
    if kind == ExportKind then c
    else match phase
    case Completed => NotReady(c, RCompleted)
    case Expired => NotReady(c, RExpired).(completed := Some(Verdict(False, RExpired)))
    case Failed => c.(completed := Some(Verdict(False, RFailed)))
    case _ => c
  }

  function FinalizeStatus(kind: Kind, deleting: bool, server: ServerState, c: Controlled, failure: Failure, now: int)
    : Controlled
  {
    var phase := ComputePhase(deleting, server, c, failure);
    TerminalConditions(kind, c, phase).(
      phase := phase,
      completion := if phase.IsTerminal() && c.completion.None? then Some(now) else c.completion)
  }

  /** A whole reconcile in memory: the controlled status and whether our finalizer is wanted. */
  function Computed(kind: Kind, s: Seen, i: Inputs, now: int): (Controlled, bool) {
    var d := if kind == ImportKind then ImportBody(s, i) else ExportBody(s, i);
    var c := MutateReadyByErr(d.ctl, d.failure);
    (FinalizeStatus(kind, s.deleting, s.server, c, d.failure, now), d.holds)
  }
}
