// The DataImport reconcile as the controller runs it, editing one in-memory object step by step
// (data_import_resource.go Reconcile).
module ImportReconciler {
  import opened Options
  import opened Lifecycle
  import opened ImportLifecycle
  import opened LifecycleTheorems

  /** What the body does to a consistent status before the phase is computed. */
  lemma BodyKeeps(s: Seen, i: Inputs)
    requires Consistent(ImportKind, s.ctl, s.server, s.deleting)
    ensures var d := ImportBody(s, i);
            && d.ctl.phase == s.ctl.phase && d.ctl.completion == s.ctl.completion
            && (ReadyIs(d.ctl, RExpired) ==> !IsTrue(d.ctl.completed))
            && (IsTrue(d.ctl.completed) ==> IsTrue(d.ctl.uploaded) && s.server == Finished)
            && (!s.deleting && s.ctl.phase == Completed ==> d == Draft(s.ctl, s.holds, NoError))
  {
    if !s.deleting && !IsExpired(s.server, WithBaseConditions(s.ctl)) && !s.ctl.phase.IsTerminal() {
      PipelineKeeps(s, i);
    }
  }

  // The PVC was looked at, and its volume mode is known wherever it is needed.
  predicate HasVolume(i: Inputs) {
    i.target != TError && (i.volumeMode.Some? || i.createPvc)
  }

  /** What a bound, uploaded PVC comes to, by the outcome of its capture. */
  predicate CaptureAnswered(was: Controlled, ctl: Controlled, capture: Capture, failure: Failure) {
    match capture
    case Captured(a) => ctl.data == Some(a) && ctl.completed == Some(Verdict(True, RCompleted)) && failure == NoError
    case CaptureWaiting => ReadyIs(ctl, RPending) && ctl.completed == was.completed && failure == NoError
    case KeeperWait => ctl.ready == was.ready && ctl.completed == was.completed && failure == NoError
    case CaptureFailed => failure == TargetFailed(true)
    case ClassUnresolved => failure == TargetFailed(false)
    case CaptureApiError => failure == OtherError
  }

  // The target still has to be ensured.
  predicate StillToEnsure(c: Controlled, i: Inputs) {
    if i.createPvc then !IsTrue(c.completed) else c.data.None?
  }

  // The upload is in and nothing stands between the import and the capture of its PVC.
  predicate ReachesCapture(s: Seen, i: Inputs) {
    && !s.deleting && !s.ctl.phase.IsTerminal() && s.server == Finished
    && i.specOk && (i.createPvc || i.capability == Capable) && !i.ensureFails
    && HasVolume(i) && i.target == TReady
  }

  predicate CanComplete(s: Seen, i: Inputs) {
    ReachesCapture(s, i) && (i.createPvc || i.capture.Captured?)
  }

  // The pod serves and the upload is not in yet.
  predicate HasTarget(s: Seen, i: Inputs) {
    && !s.deleting && !s.ctl.phase.IsTerminal() && s.server == ServerReady && !ReadyIs(s.ctl, RExpired)
    && i.specOk && (i.createPvc || i.capability == Capable) && !i.ensureFails
    && HasVolume(i) && i.target == TReady
  }

  predicate CanServe(s: Seen, i: Inputs) {
    HasTarget(s, i) && !i.publishFails && (i.publish ==> i.ingress == IngressReady)
  }

  /** What the body answers at the two ends of an import, and when it serves. */
  lemma BodyAnswers(s: Seen, i: Inputs)
    ensures var d := ImportBody(s, i);
            && (s.deleting ==> ReadyIs(d.ctl, RDeleted))
            && (s.deleting && i.teardown == AllGone ==>
                  if i.pvcReleaseFails then d.failure == CleanupFailed && d.holds == s.holds
                  else d.failure == NoError && !d.holds)
            && ((s.deleting || IsExpired(s.server, s.ctl)) && i.teardown == TeardownError ==> d.failure == CleanupFailed)
            && (!s.deleting && IsExpired(s.server, s.ctl) ==>
                  && ReadyIs(d.ctl, RExpired) && d.holds == s.holds
                  && (i.teardown != TeardownError ==> d.failure == NoError && d.ctl.publicUrl == ""))
            && (!s.deleting && !IsExpired(s.server, s.ctl) && !s.ctl.phase.IsTerminal() ==> d.holds)
            && (s.deleting && i.teardown == NotGone ==> d.failure == NoError && d.holds == s.holds && d.ctl.publicUrl == "")
  {}

  /** An import that is over is left alone. */
  lemma OverIsLeftAlone(s: Seen, i: Inputs)
    requires !s.deleting && !IsExpired(s.server, s.ctl) && s.ctl.phase in {Completed, Failed}
    ensures ImportBody(s, i) == Draft(WithBaseConditions(s.ctl), s.holds, NoError)
  {}

  lemma TargetConditions(c: Controlled, i: Inputs)
    requires c.ready.Some? && c.completed.Some?
    ensures var (d, _) := EnsureTarget(c, i);
            && d.ready.Some? && (IsTrue(d.ready) ==> d.ready == c.ready)
            && (d.completed == c.completed || d.completed == Some(Verdict(True, RCompleted)))
  {}

  /** Whatever a reconcile meets, the import carries both conditions afterwards. */
  lemma BodyConditions(s: Seen, i: Inputs)
    ensures var d := ImportBody(s, i);
            && d.ctl.ready.Some? && d.ctl.completed.Some?
            && (s.ctl.completed.None? && !IsTrue(d.ctl.completed) ==> d.ctl.completed == Some(Verdict(False, RInProgress)))
  {
    var c0 := WithBaseConditions(s.ctl);
    TargetConditions(if s.server == Finished then c0.(uploaded := Some(Verdict(True, RUploadFinished))) else c0, i);
  }

  /** Ready turns True only while the pod serves, with the import published if it is to be. */
  lemma ReadyMeansServing(s: Seen, i: Inputs)
    ensures var d := ImportBody(s, i);
            IsTrue(d.ctl.ready) && !IsTrue(s.ctl.ready) ==>
              s.server == ServerReady && (i.publish ==> i.ingress == IngressReady) && !i.publishFails
  {
    var c0 := WithBaseConditions(s.ctl);
    TargetConditions(if s.server == Finished then c0.(uploaded := Some(Verdict(True, RUploadFinished))) else c0, i);
  }

  /** An import whose pod serves and whose infrastructure is there is published and Ready. */
  lemma ServesWhenItCan(s: Seen, i: Inputs)
    requires CanServe(s, i) && !IsTrue(s.ctl.uploaded) && Consistent(ImportKind, s.ctl, s.server, s.deleting)
    ensures var d := ImportBody(s, i);
            && d.ctl.ready == Some(Verdict(True, RServerReady)) && d.failure == NoError
            && d.ctl.publicUrl == if i.publish then i.publicUrl else ""
  {}

  /** An import that cannot be published reports the error for a retry, and one whose ingress comes up just waits. */
  lemma WaitsForPublication(s: Seen, i: Inputs)
    requires HasTarget(s, i) && !IsTrue(s.ctl.uploaded) && Consistent(ImportKind, s.ctl, s.server, s.deleting)
    ensures var d := ImportBody(s, i);
            && (i.publishFails ==> d.failure == OtherError)
            && (!i.publishFails && i.publish && i.ingress == IngressError ==> d.failure == OtherError)
            && (!i.publishFails && i.publish && i.ingress == IngressNotReady ==> d.failure == NoError && !IsTrue(d.ctl.ready))
  {}

  /** Readiness is settled once the upload is in, and it is only ever given by a serving pod. */
  lemma ReadinessIsSettled(c: Controlled, server: ServerState, i: Inputs)
    requires IsTrue(c.uploaded) || server != ServerReady
    ensures UpdateReadiness(c, server, i) == (c, NoError)
  {}

  lemma CompletesWhenItCan(s: Seen, i: Inputs)
    requires CanComplete(s, i) && Consistent(ImportKind, s.ctl, s.server, s.deleting)
    ensures var d := ImportBody(s, i);
            && d.ctl.completed == Some(Verdict(True, RCompleted)) && d.ctl.completion.None?
            && (!i.createPvc && s.ctl.data.None? ==> d.ctl.data == Some(i.capture.artifact))
  {}

  lemma FailsWhenCaptureFails(s: Seen, i: Inputs)
    requires ReachesCapture(s, i) && !i.createPvc && s.ctl.data.None? && i.capture == CaptureFailed
    requires Consistent(ImportKind, s.ctl, s.server, s.deleting)
    ensures var d := ImportBody(s, i);
            d.failure == TargetFailed(true) && !IsTrue(d.ctl.completed) && !ReadyIs(d.ctl, RExpired) && d.ctl.completion.None?
  {}

  class DataImportReconciler {
    var ctl: Controlled
    var holds: bool
    const seen: Seen
    const inputs: Inputs

    constructor (seen: Seen, inputs: Inputs)
      ensures this.seen == seen && this.inputs == inputs && ctl == seen.ctl && holds == seen.holds
    {
      this.seen, this.inputs, ctl, holds := seen, inputs, seen.ctl, seen.holds;
    }

    /**
     * handleTargetStatus and handlePVCImportStatus: an import completes here only if the upload is in and the PVC is
     * bound, and it gets an artifact exactly when one was captured; the captured artifact completes it.
     */
    method HandleTargetStatus() returns (failure: Failure)
      modifies this`ctl
      ensures (ctl, failure) == HandleTarget(old(ctl), inputs)
      ensures old(ctl).data.None? ==> StageKeeps(old(ctl), ctl)
      ensures IsTrue(ctl.completed) && !IsTrue(old(ctl).completed) ==>
                IsTrue(ctl.uploaded) && inputs.target == TReady && failure == NoError
      ensures old(ctl).data.None? && ctl.data.Some? ==>
                inputs.capture == Captured(ctl.data.value) && !inputs.createPvc && IsTrue(ctl.uploaded)
      ensures failure == TargetFailed(true) ==> inputs.capture == CaptureFailed && IsTrue(ctl.uploaded)
      ensures failure != CleanupFailed
      ensures inputs.target == TError || (inputs.volumeMode.None? && !inputs.createPvc) ==> failure == OtherError
      ensures HasVolume(inputs) && inputs.target == TReady && !IsTrue(old(ctl).uploaded) ==>
                ReadyIs(ctl, RPending) && ctl.completed == old(ctl).completed && failure == NoError
      ensures HasVolume(inputs) && inputs.target == TReady && IsTrue(old(ctl).uploaded) && inputs.createPvc ==>
                ctl.completed == Some(Verdict(True, RCompleted)) && ctl.data == old(ctl).data && failure == NoError
      ensures HasVolume(inputs) && inputs.target == TReady && IsTrue(old(ctl).uploaded) && !inputs.createPvc ==>
                CaptureAnswered(old(ctl), ctl, inputs.capture, failure)
      ensures HasVolume(inputs) && inputs.target == TFailed ==> failure == TargetFailed(false)
      ensures HasVolume(inputs) && inputs.volumeMode.Some? ==> ctl.volumeMode == inputs.volumeMode.value
      ensures HasVolume(inputs) && inputs.target == TNeedConsumer && inputs.jobFails ==> failure == OtherError
      ensures HasVolume(inputs) && (inputs.target == TPending || (inputs.target == TNeedConsumer && !inputs.jobFails)) ==>
                ReadyIs(ctl, RPVCCreated) && failure == NoError
      ensures failure != NoError || inputs.target == TUnknown ==>
                ctl.ready == old(ctl).ready && ctl.completed == old(ctl).completed && ctl.data == old(ctl).data
    {
      if inputs.target == TError || (inputs.volumeMode.None? && !inputs.createPvc) {
        return OtherError;
      }
      if inputs.volumeMode.Some? {
        ctl := ctl.(volumeMode := inputs.volumeMode.value);
      }
      match inputs.target {
        case TReady =>
          if !IsTrue(ctl.uploaded) {
            ctl := NotReady(ctl, RPending);
            return NoError;
          }
          if inputs.createPvc {
            ctl := Complete(ctl);
            return NoError;
          }
          match inputs.capture {
            case ClassUnresolved => return TargetFailed(false);
            case CaptureApiError => return OtherError;
            case KeeperWait => return NoError;
            case CaptureFailed => return TargetFailed(true);
            case CaptureWaiting =>
              ctl := NotReady(ctl, RPending);
              return NoError;
            case Captured(artifact) =>
              ctl := ctl.(data := Some(artifact));
              ctl := Complete(ctl);
              return NoError;
          }
        case TPending =>
          ctl := NotReady(ctl, RPVCCreated);
          return NoError;
        case TNeedConsumer =>
          if inputs.jobFails {
            return OtherError;
          }
          ctl := NotReady(ctl, RPVCCreated);
          return NoError;
        case TFailed => return TargetFailed(false);
        case TUnknown => return NoError;
        case TError => return OtherError;
      }
    }

    /**
     * finalizeDataImportStatus: a terminal phase stays unless the object is being deleted, it is stamped once, it
     * brings its own conditions, and an import does not become Completed without Completed=True.
     */
    method FinalizeDataImportStatus(failure: Failure, now: int)
      modifies this`ctl
      ensures ctl == FinalizeStatus(ImportKind, seen.deleting, seen.server, old(ctl), failure, now)
      ensures old(ctl).phase.IsTerminal() ==> ctl.phase == if seen.deleting then Terminating else old(ctl).phase
      ensures old(ctl).completion.Some? ==> ctl.completion == old(ctl).completion
      ensures ctl.completion != old(ctl).completion ==> ctl.completion == Some(now) && ctl.phase.IsTerminal()
      ensures ctl.phase.IsTerminal() ==> ctl.completion.Some?
      ensures ctl.phase == Completed && old(ctl).phase != Completed ==> IsTrue(ctl.completed)
      ensures ctl.phase == Completed ==> ReadyIs(ctl, RCompleted)
      ensures ctl.phase == Expired ==> ReadyIs(ctl, RExpired) && !IsTrue(ctl.completed)
      ensures ctl.phase == Failed ==> !IsTrue(ctl.completed)
      ensures ctl.phase == Terminating <==> seen.deleting
      ensures !seen.deleting && !old(ctl).phase.IsTerminal() ==>
                && (ctl.phase == Completed <==> IsTrue(old(ctl).completed))
                && (ctl.phase == Expired <==> !IsTrue(old(ctl).completed) && IsExpired(seen.server, old(ctl)))
                && (ctl.phase == Failed <==>
                      !IsTrue(old(ctl).completed) && !IsExpired(seen.server, old(ctl)) && failure.IsTerminal())
                && (ctl.phase == Ready <==>
                      && !IsTrue(old(ctl).completed) && !IsExpired(seen.server, old(ctl)) && !failure.IsTerminal()
                      && (IsTrue(old(ctl).ready) || IsTrue(old(ctl).uploaded)))
                && ctl.phase != Unset
    {
      var phase := ComputePhase(seen.deleting, seen.server, ctl, failure);
      match phase {
        case Completed =>
          ctl := NotReady(ctl, RCompleted);
        case Expired =>
          ctl := NotReady(ctl, RExpired);
          ctl := ctl.(completed := Some(Verdict(False, RExpired)));
        case Failed =>
          ctl := ctl.(completed := Some(Verdict(False, RFailed)));
        case _ =>
      }
      ctl := ctl.(phase := phase);
      if phase.IsTerminal() && ctl.completion.None? {
        ctl := ctl.(completion := Some(now));
      }
    }

    /**
     * The body up to the deferred block: phase and stamp are not its business; the finalizer is dropped only for a
     * deleted object whose infrastructure is gone and whose PVC is released; an import is torn down as expired only
     * before it completes; nothing becomes Completed while its upload is not finished.
     */
    method RunBody() returns (failure: Failure)
      requires ctl == seen.ctl && holds == seen.holds
      requires Consistent(ImportKind, seen.ctl, seen.server, seen.deleting)
      modifies this
      ensures Draft(ctl, holds, failure) == ImportBody(seen, inputs)
      ensures ctl.phase == seen.ctl.phase && ctl.completion == seen.ctl.completion
      ensures seen.holds && !holds ==> seen.deleting && inputs.teardown == AllGone && !inputs.pvcReleaseFails
      ensures ReadyIs(ctl, RExpired) ==> !IsTrue(ctl.completed)
      ensures IsTrue(ctl.completed) ==> IsTrue(ctl.uploaded) && seen.server == Finished
      ensures !seen.deleting && seen.ctl.phase == Completed ==> ctl == seen.ctl && holds == seen.holds
      ensures seen.deleting ==> ReadyIs(ctl, RDeleted)
      ensures seen.deleting && inputs.teardown == AllGone ==>
                if inputs.pvcReleaseFails then failure == CleanupFailed && holds == seen.holds
                else failure == NoError && !holds
      ensures (seen.deleting || IsExpired(seen.server, seen.ctl)) && inputs.teardown == TeardownError ==> failure == CleanupFailed
      ensures !seen.deleting && IsExpired(seen.server, seen.ctl) ==>
                && ReadyIs(ctl, RExpired) && holds == seen.holds
                && (inputs.teardown != TeardownError ==> failure == NoError && ctl.publicUrl == "")
      ensures !seen.deleting && !IsExpired(seen.server, seen.ctl) && !seen.ctl.phase.IsTerminal() ==> holds
    {
      BodyAnswers(seen, inputs);
      BodyKeeps(seen, inputs);
      if ctl.ready.None? {
        ctl := NotReady(ctl, RPending);
      }
      if ctl.completed.None? {
        ctl := ctl.(completed := Some(Verdict(False, RInProgress)));
      }
      if seen.deleting {
        ctl := NotReady(ctl, RDeleted);
        if inputs.teardown == TeardownError {
          return CleanupFailed;
        }
        ctl := ctl.(publicUrl := "");
        if inputs.teardown == NotGone {
          return NoError;
        }
        if inputs.pvcReleaseFails {
          return CleanupFailed;
        }
        holds := false;
        return NoError;
      }
      if IsExpired(seen.server, ctl) {
        ctl := NotReady(ctl, RExpired);
        if inputs.teardown == TeardownError {
          return CleanupFailed;
        }
        ctl := ctl.(publicUrl := "");
        return NoError;
      }
      if ctl.phase.IsTerminal() && ctl.phase != Expired {
        return NoError;
      }
      holds := true;
      if seen.server == Finished {
        ctl := ctl.(uploaded := Some(Verdict(True, RUploadFinished)));
      }
      failure := RunEnsureTarget();
      if failure != NoError {
        return;
      }
      if inputs.publishFails {
        return OtherError;
      }
      ctl := ctl.(publicUrl := if inputs.publish then inputs.publicUrl else "");
      if IsTrue(ctl.uploaded) || seen.server != ServerReady {
        return NoError;
      }
      if inputs.publish {
        if inputs.ingress == IngressError {
          return OtherError;
        }
        if inputs.ingress == IngressNotReady {
          return NoError;
        }
      }
      ctl := ctl.(ready := Some(Verdict(True, RServerReady)));
      return NoError;
    }

    /** ensureTarget: an import with an artifact is completed without looking at its PVC again. */
    method RunEnsureTarget() returns (failure: Failure)
      modifies this`ctl
      ensures (ctl, failure) == EnsureTarget(old(ctl), inputs)
      ensures !inputs.createPvc && old(ctl).data.Some? ==> IsTrue(ctl.completed) && failure == NoError
      ensures inputs.createPvc && IsTrue(old(ctl).completed) ==> ctl == old(ctl) && failure == NoError
      ensures StillToEnsure(old(ctl), inputs) && !inputs.specOk ==> ctl == old(ctl) && failure == TargetFailed(true)
      ensures StillToEnsure(old(ctl), inputs) && inputs.specOk && !inputs.createPvc && inputs.capability != Capable ==>
                ctl == old(ctl) && failure == TargetFailed(inputs.capability == NotCapable)
      ensures StillToEnsure(old(ctl), inputs) && inputs.specOk && (inputs.createPvc || inputs.capability == Capable) ==>
                (inputs.ensureFails ==> ctl == old(ctl) && failure == OtherError)
    {
      if inputs.createPvc {
        if IsTrue(ctl.completed) {
          return NoError;
        }
        if !inputs.specOk {
          return TargetFailed(true);
        }
      } else {
        if ctl.data.Some? {
          ctl := Complete(ctl);
          return NoError;
        }
        if !inputs.specOk {
          return TargetFailed(true);
        }
        if inputs.capability != Capable {
          return TargetFailed(inputs.capability == NotCapable);
        }
      }
      if inputs.ensureFails {
        return OtherError;
      }
      failure := HandleTargetStatus();
    }

    /**
     * A whole reconcile: from a consistent status it makes a consistent one that leaves the final fields as they
     * were, and a new stamp belongs to a terminal phase.
     */
    method Reconcile(now: int)
      requires ctl == seen.ctl && holds == seen.holds
      requires Consistent(ImportKind, seen.ctl, seen.server, seen.deleting)
      modifies this
      ensures (ctl, holds) == Computed(ImportKind, seen, inputs, now)
      ensures Consistent(ImportKind, ctl, seen.server, seen.deleting)
      ensures Follows(seen.ctl, ctl)
      ensures ctl.completion != seen.ctl.completion ==> ctl.completion == Some(now) && ctl.phase.IsTerminal()
      ensures seen.holds && !holds ==> seen.deleting && inputs.teardown == AllGone && !inputs.pvcReleaseFails
      ensures CanComplete(seen, inputs) ==>
                && ctl.phase == Completed && ctl.completion == Some(now) && ctl.completed == Some(Verdict(True, RCompleted))
                && (!inputs.createPvc && seen.ctl.data.None? ==> ctl.data == Some(inputs.capture.artifact))
      ensures ReachesCapture(seen, inputs) && !inputs.createPvc && seen.ctl.data.None? && inputs.capture == CaptureFailed ==>
                && ctl.phase == Failed && ctl.completion == Some(now)
                && ReadyIs(ctl, RTargetFailed) && ctl.completed == Some(Verdict(False, RFailed))
      ensures CanServe(seen, inputs) && !IsTrue(seen.ctl.uploaded) ==>
                && ctl.phase == Phase.Ready && ctl.ready == Some(Verdict(True, RServerReady))
                && ctl.publicUrl == if inputs.publish then inputs.publicUrl else ""
    {
      ImportKeeps(seen, inputs, now);
      if CanComplete(seen, inputs) {
        CompletesWhenItCan(seen, inputs);
      } else if CanServe(seen, inputs) && !IsTrue(seen.ctl.uploaded) {
        ServesWhenItCan(seen, inputs);
      } else if ReachesCapture(seen, inputs) && inputs.capture == CaptureFailed && seen.ctl.data.None? {
        FailsWhenCaptureFails(seen, inputs);
      }
      var failure := RunBody();
      ctl := MutateReadyByErr(ctl, failure);
      FinalizeDataImportStatus(failure, now);
    }
  }
}
