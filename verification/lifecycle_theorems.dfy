// Over every run of the shared object: how its outcome fields agree, which of them are final, and when the
// collector may take it.
module LifecycleTheorems {
  import opened Options
  import opened Finalizers
  import opened Lifecycle
  import opened ImportLifecycle
  import opened SharedStatus

  // ---- the relation between the outcome fields ----

  /** One version of the status: the controller's fields against the signal and the deletion mark they rest on. */
  predicate Consistent(kind: Kind, c: Controlled, server: ServerState, deleting: bool) {
    && (c.phase == Terminating ==> deleting)
    && (c.phase.IsTerminal() ==> c.completion.Some?)
    && (c.completion.Some? ==> c.phase.IsTerminal() || c.phase == Terminating)
    && (IsTrue(c.uploaded) ==> server == Finished)
    && (IsTrue(c.completed) ==> IsTrue(c.uploaded) && c.phase in {Completed, Terminating})
    && (c.data.Some? ==> IsTrue(c.completed))
    && (c.phase == Completed ==> IsTrue(c.completed) && ReadyIs(c, RCompleted))
    && (c.phase == Expired ==> ReadyIs(c, RExpired))
    && (ReadyIs(c, RExpired) ==> c.phase in {Expired, Failed, Terminating})
    && (kind == ExportKind ==> c.completed.None? && c.uploaded.None? && c.data.None?)
  }

  /** How a later status may differ from an earlier one in the fields that are final. */
  predicate Follows(a: Controlled, b: Controlled) {
    && (a.phase.IsTerminal() ==> b.phase == a.phase || b.phase == Terminating)
    && (a.phase == Terminating ==> b.phase == Terminating)
    && (a.completion.Some? ==> b.completion == a.completion)
  }

  // What a stage of the pipeline may do on the way from c to d.
  predicate StageKeeps(c: Controlled, d: Controlled) {
    && d.phase == c.phase && d.completion == c.completion && d.uploaded == c.uploaded
    && (IsTrue(d.completed) ==> IsTrue(c.completed) || IsTrue(c.uploaded))
    && (IsTrue(c.completed) || (d.data.Some? && c.data.None?) ==> IsTrue(d.completed))
    && (c.data.Some? ==> d.data == c.data)
    && (ReadyIs(d, RExpired) ==> ReadyIs(c, RExpired))
  }

  lemma HandleTargetKeeps(c: Controlled, i: Inputs)
    requires c.data.None?
    ensures StageKeeps(c, HandleTarget(c, i).0) && HandleTarget(c, i).1 != CleanupFailed
  {}

  lemma EnsureTargetKeeps(c: Controlled, i: Inputs)
    requires c.data.None?
    ensures StageKeeps(c, EnsureTarget(c, i).0) && EnsureTarget(c, i).1 != CleanupFailed
  {
    HandleTargetKeeps(c, i);
  }

  lemma ReadinessKeeps(c: Controlled, server: ServerState, i: Inputs)
    ensures StageKeeps(c, UpdateReadiness(c, server, i).0) && UpdateReadiness(c, server, i).1 != CleanupFailed
  {}

  /** The pipeline completes only an uploaded import, never signals expiry and leaves the final fields alone. */
  lemma PipelineKeeps(s: Seen, i: Inputs)
    requires Consistent(ImportKind, s.ctl, s.server, s.deleting)
    requires !s.deleting && !IsExpired(s.server, WithBaseConditions(s.ctl)) && !s.ctl.phase.IsTerminal()
    ensures var d := ImportPipeline(s, i);
            && d.ctl.phase == s.ctl.phase && d.ctl.completion == s.ctl.completion
            && (IsTrue(d.ctl.uploaded) ==> s.server == Finished)
            && (IsTrue(d.ctl.completed) ==> IsTrue(d.ctl.uploaded))
            && (d.ctl.data.Some? ==> IsTrue(d.ctl.completed))
            && !ReadyIs(d.ctl, RExpired)
            && d.failure != CleanupFailed
  {
    var c0 := WithBaseConditions(s.ctl);
    var c1 := if s.server == Finished then c0.(uploaded := Some(Verdict(True, RUploadFinished))) else c0;
    EnsureTargetKeeps(c1, i);
    var (c2, f2) := EnsureTarget(c1, i);
    var c3 := c2.(publicUrl := if i.publish then i.publicUrl else "");
    ReadinessKeeps(c3, s.server, i);
  }

  /** The deferred block on what a body that ended without expiry or deletion leaves. */
  lemma FinalizeKeeps(s: Seen, d: Draft, now: int)
    requires Consistent(ImportKind, s.ctl, s.server, s.deleting)
    requires !s.deleting && s.server != IdleExpired && !s.ctl.phase.IsTerminal()
    requires d.ctl.phase == s.ctl.phase && d.ctl.completion == s.ctl.completion
    requires IsTrue(d.ctl.uploaded) ==> s.server == Finished
    requires IsTrue(d.ctl.completed) ==> IsTrue(d.ctl.uploaded)
    requires d.ctl.data.Some? ==> IsTrue(d.ctl.completed)
    requires !ReadyIs(d.ctl, RExpired) && d.failure != CleanupFailed
    ensures var c := FinalizeStatus(ImportKind, s.deleting, s.server, MutateReadyByErr(d.ctl, d.failure), d.failure, now);
            && Consistent(ImportKind, c, s.server, s.deleting) && Follows(s.ctl, c)
            && (c.completion != s.ctl.completion ==> c.completion == Some(now) && c.phase.IsTerminal())
  {
    var c := MutateReadyByErr(d.ctl, d.failure);
    assert !ReadyIs(c, RExpired);
    assert ComputePhase(s.deleting, s.server, c, d.failure) != Expired;
  }

  lemma DeletionKeeps(s: Seen, i: Inputs, now: int)
    requires Consistent(ImportKind, s.ctl, s.server, s.deleting) && s.deleting
    ensures var c := Computed(ImportKind, s, i, now).0;
            && Consistent(ImportKind, c, s.server, s.deleting) && Follows(s.ctl, c)
            && c.completion == s.ctl.completion
  {}

  lemma ExpiryKeeps(s: Seen, i: Inputs, now: int)
    requires Consistent(ImportKind, s.ctl, s.server, s.deleting) && !s.deleting
    requires IsExpired(s.server, WithBaseConditions(s.ctl))
    ensures var c := Computed(ImportKind, s, i, now).0;
            && Consistent(ImportKind, c, s.server, s.deleting) && Follows(s.ctl, c)
            && (c.completion != s.ctl.completion ==> c.completion == Some(now) && c.phase.IsTerminal())
  {
    var d := ImportBody(s, i);
    assert s.ctl.phase != Completed;
    assert ReadyIs(MutateReadyByErr(d.ctl, d.failure), RExpired);
  }

  lemma ImportKeeps(s: Seen, i: Inputs, now: int)
    requires Consistent(ImportKind, s.ctl, s.server, s.deleting)
    ensures var c := Computed(ImportKind, s, i, now).0;
            && Consistent(ImportKind, c, s.server, s.deleting) && Follows(s.ctl, c)
            && (c.completion != s.ctl.completion ==> c.completion == Some(now) && c.phase.IsTerminal())
  {
    if s.deleting {
      DeletionKeeps(s, i, now);
    } else if IsExpired(s.server, WithBaseConditions(s.ctl)) {
      ExpiryKeeps(s, i, now);
    } else if !s.ctl.phase.IsTerminal() {
      PipelineKeeps(s, i);
      FinalizeKeeps(s, ImportPipeline(s, i), now);
    }
  }

  lemma ExportKeeps(s: Seen, i: Inputs, now: int)
    requires Consistent(ExportKind, s.ctl, s.server, s.deleting)
    ensures var c := Computed(ExportKind, s, i, now).0;
            && Consistent(ExportKind, c, s.server, s.deleting) && Follows(s.ctl, c)
            && (c.completion != s.ctl.completion ==> c.completion == Some(now) && c.phase.IsTerminal())
  {}

  // ---- the invariant of the whole object ----

  function JobsOf(c: Controller): set<Job> {
    if c.AtRest? then {} else {c.job}
  }

  // What the last two versions may do to the stamp: it appears together with a terminal phase.
  predicate StampedWhenTerminal(a: Controlled, b: Controlled) {
    a.completion.None? && b.completion.Some? ==> b.phase.IsTerminal()
  }

  predicate JobOk(w: World, job: Job)
    requires w.history != []
  {
    var o := Current(w);
    && Consistent(w.kind, job.ctl, o.status.server, o.deleting)
    && Follows(o.status.ctl, job.ctl)
    && StampedWhenTerminal(o.status.ctl, job.ctl)
    && (job.ctl.completion.Some? ==> job.ctl.completion.value <= w.clock)
  }

  predicate VersionOk(w: World, k: nat)
    requires k < |w.history| == |w.times|
  {
    var o := w.history[k];
    && Consistent(w.kind, o.status.ctl, o.status.server, o.deleting)
    && (o.status.ctl.completion.Some? ==> o.status.ctl.completion.value <= w.times[k])
    && w.times[k] <= w.clock
    && o.status.server.Rank() <= Current(w).status.server.Rank()
    && (o.deleting ==> Current(w).deleting)
    && (k == 0 ==> o.status.ctl.completion.None?)
    && (k > 0 ==> Follows(w.history[k - 1].status.ctl, o.status.ctl))
    && (k > 0 ==> StampedWhenTerminal(w.history[k - 1].status.ctl, o.status.ctl))
    && (k > 0 ==> w.times[k - 1] <= w.times[k])
    // the controller's fields have not moved since its own last commit
    && (k >= w.own ==> o.status.ctl == Current(w).status.ctl)
  }

  predicate InvOutcome(w: World) {
    && InvVersions(w)
    && (forall k | 0 <= k < |w.history| :: VersionOk(w, k))
    && (forall job | job in JobsOf(w.controller) :: JobOk(w, job))
    && (w.collectedAt.Some? ==>
          && Current(w).status.ctl.completion.Some?
          && w.collectedAt.value - Current(w).status.ctl.completion.value > w.ttl)
  }

  /** Appending a version that keeps the controller's fields and moves the rest forward. */
  lemma AppendOther(w: World, o: Object)
    requires InvOutcome(w)
    requires o.status.ctl == Current(w).status.ctl
    requires Current(w).status.server.Rank() <= o.status.server.Rank()
    requires Current(w).deleting ==> o.deleting
    ensures InvOutcome(Append(w, o))
  {
    var w' := Append(w, o);
    assert Current(w') == o;
    var last := |w.history| - 1;
    assert VersionOk(w, last);
    forall k | 0 <= k < |w'.history| ensures VersionOk(w', k) {
      if k <= last {
        assert VersionOk(w, k) && w'.history[k] == w.history[k];
        if k > 0 {
          assert w'.history[k - 1] == w.history[k - 1];
        }
      }
    }
    forall id | id in w'.writers ensures w'.writers[id].read < |w'.history| {}
    forall job | job in JobsOf(w'.controller) ensures JobOk(w', job) {
      assert JobOk(w, job);
    }
  }

  lemma StartKeeps(w: World, read: nat, inputs: Inputs)
    requires InvOutcome(w)
    ensures InvOutcome(StepStart(w, read, inputs))
  {
    var w' := StepStart(w, read, inputs);
    if w'.controller != w.controller {
      var o := w.history[read];
      assert VersionOk(w, read);
      if w.kind == ImportKind {
        ImportKeeps(SeenOf(o), inputs, w.clock);
      } else {
        ExportKeeps(SeenOf(o), inputs, w.clock);
      }
      assert JobOk(w, w'.controller.job);
      SameHistory(w, w');
    }
  }

  /** Steps that commit nothing. */
  lemma SameHistory(w: World, w': World)
    requires InvOutcome(w) && InvVersions(w')
    requires w'.history == w.history && w'.times == w.times && w'.own == w.own && w'.kind == w.kind && w'.ttl == w.ttl
    requires w.clock <= w'.clock
    requires w'.collectedAt == w.collectedAt
    requires forall job | job in JobsOf(w'.controller) :: JobOk(w, job)
    ensures InvOutcome(w')
  {
    forall k | 0 <= k < |w'.history| ensures VersionOk(w', k) {
      assert VersionOk(w, k);
    }
    forall job | job in JobsOf(w'.controller) ensures JobOk(w', job) {
      assert JobOk(w, job);
    }
  }

  lemma MetaCommitKeeps(w: World)
    requires InvOutcome(w) && w.controller.UpdateMeta?
    ensures InvOutcome(StepCommit(w))
  {
    var w' := StepCommit(w);
    assert InvVersions(w') by { NextVersions(w, Commit); }
    if |w'.history| == |w.history| {
      SameHistory(w, w');
    } else {
      var live, job := w.controller.live, w.controller.job;
      var o := live.(finalizers := Reconciled(live.finalizers, FINALIZER, job.want));
      AppendOther(w, o);
      var mid := Append(w, o);
      assert JobOk(mid, job);
      Adopt(mid, w');
    }
  }

  /** The controller takes its own append as its last commit. */
  lemma Adopt(mid: World, w': World)
    requires InvOutcome(mid) && InvVersions(w')
    requires w'.history == mid.history && w'.times == mid.times && w'.kind == mid.kind && w'.ttl == mid.ttl
    requires w'.own == |mid.history| - 1
    requires w'.clock == mid.clock && w'.collectedAt == mid.collectedAt
    requires forall job | job in JobsOf(w'.controller) :: JobOk(mid, job)
    ensures InvOutcome(w')
  {
    forall k | 0 <= k < |w'.history| ensures VersionOk(w', k) {
      assert VersionOk(mid, k);
    }
    forall job | job in JobsOf(w'.controller) ensures JobOk(w', job) {
      assert JobOk(mid, job);
    }
  }

  lemma StatusCommitKeeps(w: World)
    requires InvOutcome(w) && w.controller.UpdateStatus?
    ensures InvOutcome(StepCommit(w))
  {
    var w' := StepCommit(w);
    assert InvVersions(w') by { NextVersions(w, Commit); }
    if |w'.history| == |w.history| {
      SameHistory(w, w');
    } else {
      var job, last := w.controller.job, |w.history| - 1;
      assert job in JobsOf(w.controller) && JobOk(w, job);
      assert VersionOk(w, last);
      assert w.controller.live == Current(w);
      forall k | 0 <= k < |w'.history| ensures VersionOk(w', k) {
        if k <= last {
          assert VersionOk(w, k) && w'.history[k] == w.history[k];
          if k > 0 {
            assert w'.history[k - 1] == w.history[k - 1];
          }
        }
      }
    }
  }

  lemma PodWriteKeeps(w: World, id: nat)
    requires InvOutcome(w)
    ensures InvOutcome(StepPodWrite(w, id))
  {
    var w' := StepPodWrite(w, id);
    assert InvVersions(w') by { NextVersions(w, PodWrite(id)); }
    if |w'.history| == |w.history| {
      SameHistory(w, w');
    } else {
      ServerClimbs(w, PodWrite(id));
      AppendOther(w, Current(w'));
      var mid := Append(w, Current(w'));
      assert w'.history == mid.history;
      SameHistory(mid, w');
    }
  }

  lemma DeletedKeeps(w: World)
    requires InvOutcome(w)
    ensures InvOutcome(DeletedObject(w))
    ensures Current(DeletedObject(w)).status == Current(w).status
    ensures DeletedObject(w).collectedAt == w.collectedAt && DeletedObject(w).ttl == w.ttl
  {
    var w' := DeletedObject(w);
    if |w'.history| == |w.history| {
      SameHistory(w, w');
    } else {
      AppendOther(w, Current(w).(deleting := true));
    }
  }

  lemma ForeignKeeps(w: World, finalizers: seq<string>)
    requires InvOutcome(w)
    ensures InvOutcome(StepEditForeign(w, finalizers))
  {
    var w' := StepEditForeign(w, finalizers);
    if |w'.history| == |w.history| {
      SameHistory(w, w');
    } else {
      AppendOther(w, Current(w).(finalizers := finalizers));
    }
  }

  /** What the collector acts on is still so of the object as it is now, however old its copy was. */
  lemma StaleCheckHolds(w: World, read: nat)
    requires InvOutcome(w) && read < |w.history|
    requires IsReapable(w.history[read], w.ttl, w.clock)
    ensures Current(w).deleting || IsReapable(Current(w), w.ttl, w.clock)
    ensures Current(w).status.ctl.completion == w.history[read].status.ctl.completion
  {
    FollowsThrough(w, read, |w.history| - 1);
    assert VersionOk(w, |w.history| - 1);
  }

  lemma CollectKeeps(w: World, read: nat)
    requires InvOutcome(w)
    ensures InvOutcome(StepCollect(w, read))
  {
    if !w.gone && read < |w.history| && IsReapable(w.history[read], w.ttl, w.clock) {
      StaleCheckHolds(w, read);
      DeletedKeeps(w);
      var mid, w' := DeletedObject(w), StepCollect(w, read);
      forall k | 0 <= k < |w'.history| ensures VersionOk(w', k) {
        assert VersionOk(mid, k);
      }
      forall job | job in JobsOf(w'.controller) ensures JobOk(w', job) {
        assert JobOk(mid, job);
      }
    }
  }

  lemma NextKeeps(w: World, ev: Event)
    requires InvOutcome(w)
    ensures InvOutcome(Next(w, ev))
  {
    match ev
    case Start(read, inputs) => StartKeeps(w, read, inputs);
    case Commit =>
      if w.controller.UpdateMeta? {
        MetaCommitKeeps(w);
      } else if w.controller.UpdateStatus? {
        StatusCommitKeeps(w);
      }
    case PodWrite(id) => PodWriteKeeps(w, id);
    case EditForeign(finalizers) => ForeignKeeps(w, finalizers);
    case UserDeletes => DeletedKeeps(w);
    case Collect(read) => CollectKeeps(w, read);
    case _ =>
      NextVersions(w, ev);
      SameHistory(w, Next(w, ev));
  }

  lemma {:induction false} RunKeeps(w: World, evs: seq<Event>)
    requires Initial(w)
    ensures InvOutcome(Run(w, evs))
  {
    if evs == [] {
      assert VersionOk(w, 0);
    } else {
      RunKeeps(w, evs[..|evs| - 1]);
      NextKeeps(Run(w, evs[..|evs| - 1]), evs[|evs| - 1]);
    }
  }

  lemma {:induction false} FollowsThrough(w: World, i: nat, j: nat)
    requires InvOutcome(w) && i <= j < |w.history|
    ensures Follows(w.history[i].status.ctl, w.history[j].status.ctl)
    decreases j - i
  {
    if i < j {
      FollowsThrough(w, i, j - 1);
      assert VersionOk(w, j - 1) && VersionOk(w, j);
    }
  }

  // ---- the theorems ----

  /** What a reader of one version may conclude from the phase. */
  predicate OutcomeOk(o: Object) {
    var c := o.status.ctl;
    && (c.phase == Completed ==>
          && o.status.server == Finished
          && IsTrue(c.uploaded) && IsTrue(c.completed) && c.ready == Some(Verdict(False, RCompleted))
          && !IsExpired(o.status.server, c))
    && (c.phase == Expired ==> c.ready == Some(Verdict(False, RExpired)) && !IsTrue(c.completed))
    && (IsTrue(c.completed) ==> o.status.server == Finished && (c.phase == Completed || c.phase == Terminating))
    && (c.data.Some? ==> IsTrue(c.completed))
  }

  lemma OutcomesAgree(w: World, evs: seq<Event>)
    requires Initial(w)
    ensures forall o | o in Run(w, evs).history :: OutcomeOk(o)
  {
    RunKeeps(w, evs);
    var h := Run(w, evs).history;
    forall o | o in h ensures OutcomeOk(o) {
      var k :| 0 <= k < |h| && h[k] == o;
      assert VersionOk(Run(w, evs), k);
    }
  }

  /** Once Completed, no later version a reconcile may read sends it down the expiry branch. */
  lemma CompletedIsNeverExpired(w: World, evs: seq<Event>, i: nat, j: nat)
    requires Initial(w) && i <= j < |Run(w, evs).history|
    requires Run(w, evs).history[i].status.ctl.phase == Completed
    ensures var s := SeenOf(Run(w, evs).history[j]);
            s.deleting || (!IsExpired(s.server, WithBaseConditions(s.ctl)) && s.ctl.phase == Completed)
  {
    RunKeeps(w, evs);
    FollowsThrough(Run(w, evs), i, j);
    assert VersionOk(Run(w, evs), j);
  }

  /** A terminal phase changes to Terminating and to nothing else, and the stamp never changes. */
  lemma TerminalIsSticky(w: World, evs: seq<Event>, i: nat, j: nat)
    requires Initial(w) && i <= j < |Run(w, evs).history|
    ensures Follows(Run(w, evs).history[i].status.ctl, Run(w, evs).history[j].status.ctl)
  {
    RunKeeps(w, evs);
    FollowsThrough(Run(w, evs), i, j);
  }

  /** The first terminal version of a history. */
  function FirstTerminal(history: seq<Object>): (j: nat)
    ensures j <= |history|
    ensures forall k | 0 <= k < j :: !history[k].status.ctl.phase.IsTerminal()
    ensures j < |history| ==> history[j].status.ctl.phase.IsTerminal()
  {
    if history == [] then 0
    else if history[0].status.ctl.phase.IsTerminal() then 0
    else 1 + FirstTerminal(history[1..])
  }

  lemma {:induction false} NoStampBefore(w: World, k: nat)
    requires InvOutcome(w) && k < |w.history|
    requires forall j | 0 <= j <= k :: !w.history[j].status.ctl.phase.IsTerminal()
    ensures w.history[k].status.ctl.completion.None?
  {
    assert VersionOk(w, k);
    if k > 0 {
      NoStampBefore(w, k - 1);
    }
  }

  lemma StampOfVersion(w: World, k: nat)
    requires InvOutcome(w) && k < |w.history|
    ensures var h := w.history; var j := FirstTerminal(h);
            && h[k].status.ctl.completion == (if k < j then None else h[j].status.ctl.completion)
            && (j <= k ==> h[j].status.ctl.completion.Some? && h[j].status.ctl.completion.value <= w.times[j])
  {
    var j := FirstTerminal(w.history);
    if k < j {
      NoStampBefore(w, k);
    } else {
      assert VersionOk(w, j);
      FollowsThrough(w, j, k);
    }
  }

  /** The stamp appears with the first terminal version, in the same write, and every later version carries it. */
  lemma StampedOnce(w: World, evs: seq<Event>, k: nat)
    requires Initial(w) && k < |Run(w, evs).history|
    ensures var r := Run(w, evs); var h := r.history; var j := FirstTerminal(h);
            && |r.times| == |h|
            && h[k].status.ctl.completion == (if k < j then None else h[j].status.ctl.completion)
            && (j <= k ==> h[j].status.ctl.completion.Some? && h[j].status.ctl.completion.value <= r.times[j])
  {
    RunKeeps(w, evs);
    StampOfVersion(Run(w, evs), k);
  }

  /** More than the ttl has passed between the first terminal stamp and the collection. */
  predicate Overdue(w: World)
    requires w.collectedAt.Some?
  {
    var j := FirstTerminal(w.history);
    && j < |w.history|
    && w.history[j].status.ctl.completion.Some?
    && w.collectedAt.value - w.history[j].status.ctl.completion.value > w.ttl
  }

  lemma CollectedMeansOverdue(w: World)
    requires InvOutcome(w) && w.collectedAt.Some?
    ensures Overdue(w)
  {
    StampOfVersion(w, |w.history| - 1);
  }

  /** The collector deletes an object only when more than its ttl has passed since the first terminal stamp. */
  lemma CollectedOnlyWhenOverdue(w: World, evs: seq<Event>)
    requires Initial(w) && Run(w, evs).collectedAt.Some?
    ensures Overdue(Run(w, evs))
  {
    RunKeeps(w, evs);
    CollectedMeansOverdue(Run(w, evs));
  }

  // ---- the answers of a DataExport's reconcile ----

  /** The status of a DataExport after one reconcile, branch by branch, said of what the reconcile met. */
  lemma ExportAnswers(s: Seen, i: Inputs, now: int)
    requires Consistent(ExportKind, s.ctl, s.server, s.deleting)
    ensures var (c, holds) := Computed(ExportKind, s, i, now);
            var expired := IsExpired(s.server, s.ctl);
            && (s.deleting || expired ==> holds == (s.holds && !i.exportCleaned))
            && (s.deleting ==> c.phase == Terminating && (i.exportCleaned ==> c.ready == s.ctl.ready))
            && (s.deleting && !i.exportCleaned && !(s.ctl.ready.Some? && s.ctl.ready.value.reason in {RExpired, RDeleted}) ==>
                  ReadyIs(c, RCleanupFailed))
            && (!s.deleting && expired ==>
                  ReadyIs(c, RExpired) && (!s.ctl.phase.IsTerminal() ==> c.phase == Expired && c.completion.Some?))
            && (!s.deleting && !expired && s.ctl.phase.IsTerminal() ==>
                  c.phase == s.ctl.phase && c.ready == s.ctl.ready && holds == s.holds)
  {}

  /** The same for a DataExport that is neither deleted nor over: accepted, failed for good, ready or pending. */
  lemma ExportProvides(s: Seen, i: Inputs, now: int)
    requires Consistent(ExportKind, s.ctl, s.server, s.deleting)
    requires !s.deleting && !IsExpired(s.server, s.ctl) && !s.ctl.phase.IsTerminal() && i.exportVerdict.reason != RExpired
    ensures var (c, holds) := Computed(ExportKind, s, i, now);
            var accepts := s.ctl.ready.None? && !i.exportTerminal;
            && (accepts ==> ReadyIs(c, RPending) && c.phase == Pending && holds)
            && (!accepts && i.exportTerminal ==> ReadyIs(c, RValidationFailed) && c.phase == Phase.Failed && c.completion.Some?)
            && (!accepts && !i.exportTerminal ==>
                  c.ready == Some(i.exportVerdict) && c.publicUrl == i.publicUrl && holds == s.holds)
            && (!accepts && !i.exportTerminal ==>
                  c.phase == if i.exportVerdict.status == True then Phase.Ready else Pending)
  {}
}
