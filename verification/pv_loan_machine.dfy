// One DataExport of one user PVC as a state machine: one event per API write of the controller
// (data_export_resource.go), plus the crash, the watch cache, the users, the pod, the binder and the reclaimer.
module PvLoanMachine {
  import opened Options
  import opened Finalizers
  import opened Lifecycle
  import opened PvLoanObjects

  datatype DataExport = DataExport(
    deleting: bool,
    finalizers: seq<string>,
    ready: Option<Verdict>,
    phase: Phase,
    completion: Option<nat>,
    serverState: ServerState)

  datatype ExportPvc = ExportPvc(name: string, uid: Uid, lost: bool)

  // A PV as read by the controller, with the resourceVersion it was read at.
  datatype Snap = Snap(pv: PersistentVolume, version: nat)

  // The DataExport as read at the start of a reconcile and as mutated in memory since.
  datatype Mem = Mem(orig: DataExport, cur: DataExport)

  // On whose behalf the give-back runs: a live DataExport, or a PV found without one.
  datatype Why = ForOwner(mem: Mem) | ForOrphan(listed: Snap)

  // The API write the controller is about to make. Everything else it remembers is lost in a crash.
  datatype Pc =
    | Idle
    | CreateExport(mem: Mem, snap: Snap)
    | MarkUser(mem: Mem, snap: Snap, exportUid: Uid)
    | LendPv(mem: Mem, snap: Snap, exportUid: Uid)
    | Deploy(mem: Mem)
    | Await(mem: Mem)
    | DropDeploy(why: Why)
    | DropExport(why: Why)
    | RebindPv(why: Why, snap: Snap)
    | CleanUser(why: Why, snap: Snap)
    | RestorePv(why: Why, snap: Snap)
    | CleanRestored(why: Why)
    | FlagPv(why: Why, snap: Snap)
    | Tidy(why: Why)
    | WriteMeta(mem: Mem, want: bool)
    | WriteStatus(mem: Mem)

  // The writes of taking the PV, and those of giving it back.
  predicate Providing(pc: Pc) {
    pc.CreateExport? || pc.MarkUser? || pc.LendPv? || pc.Deploy? || pc.Await?
  }

  predicate Cleaning(pc: Pc) {
    pc.DropDeploy? || pc.DropExport? || pc.RebindPv? || pc.CleanUser? || pc.RestorePv?
    || pc.CleanRestored? || pc.FlagPv? || pc.Tidy?
  }

  datatype World = World(
    pv: PersistentVolume,
    version: nat,                   // resourceVersion of the PV
    destroyed: bool,                // the volume was reclaimed
    user: Option<UserPvc>,
    exportPvc: Option<ExportPvc>,
    deploy: Option<string>,
    de: Option<DataExport>,         // as stored by the API server
    view: Option<DataExport>,       // as the controller's watch cache shows it
    pc: Pc,
    nextUid: Uid,
    base: ReclaimPolicy,            // history: the policy last chosen by somebody other than the controller
    takes: nat,                     // history: how often the PV was taken over
    forced: bool)                   // history: the DataExport was removed past its finalizers

  datatype Failure = NoError | CleanupFailed | TargetNotFound | PvConflict | DeploymentFailed | OtherError

  datatype Event =
    | Reconcile(now: nat, inUse: bool)
    | Act(ok: bool, now: nat)
    | Crash
    | Refresh
    | UserDeletesExport
    | ForceRemoveExport
    | EditForeignFinalizers(finalizers: seq<string>)
    | PodReports(expired: bool)
    | UserDeletesPvc
    | ReleaseUserPvc
    | BinderReports(bound: bool)
    | TouchPv(pv: PersistentVolume)
    | AdminSetsPolicy(policy: ReclaimPolicy)
    | RemoveExportPvc
    | LoseExportPvc(lost: bool)
    | RemoveDeployment
    | Reclaim

  // ---- the deferred block of Reconcile ----

  predicate IsExpired(d: DataExport) {
    d.serverState == IdleExpired || d.ready == Some(Verdict(False, RExpired))
  }

  function NotReady(d: DataExport, reason: Reason): DataExport {
    d.(ready := Some(Verdict(False, reason)))
  }

  function MutateReadyByErr(d: DataExport, failure: Failure): DataExport {
    match failure
    case NoError => d
    case OtherError => d
    case CleanupFailed =>
      if d.ready.Some? && (d.ready.value.reason == RExpired || d.ready.value.reason == RDeleted) then d
      else NotReady(d, RCleanupFailed)
    case TargetNotFound => NotReady(d, RTargetNotFound)
    case PvConflict => NotReady(d, RPVConflict)
    case DeploymentFailed => NotReady(d, RDeploymentFailed)
  }

  /** computeDataExportPhase for a PVC target, which never raises the terminal error. */
  function ComputePhase(d: DataExport): Phase {
    if d.deleting then Terminating
    else if d.phase.IsTerminal() then d.phase
    else if IsExpired(d) then Expired
    else if d.ready.Some? && d.ready.value.status == True then Ready
    else Pending
  }

  function FinalizeStatus(d: DataExport, now: nat): DataExport {
    var phase := ComputePhase(d);
    d.(phase := phase,
       completion := if phase.IsTerminal() && d.completion.None? then Some(now) else d.completion)
  }

  predicate SameStatus(a: DataExport, b: DataExport) {
    a.ready == b.ready && a.phase == b.phase && a.completion == b.completion
  }

  /** The writes updateDataExport still has to make for what is in memory: metadata first, then status. */
  function Schedule(w: World, mem: Mem): (r: World)
    ensures r == w.(pc := r.pc) && !Providing(r.pc) && !Cleaning(r.pc)
  {
    var want := FINALIZER in mem.cur.finalizers;
    w.(pc := if want != (FINALIZER in mem.orig.finalizers) then WriteMeta(mem, want)
             else if !SameStatus(mem.orig, mem.cur) then WriteStatus(mem)
             else Idle)
  }

  function Finish(w: World, mem: Mem, failure: Failure, now: nat): (r: World)
    ensures r == w.(pc := r.pc) && !Providing(r.pc) && !Cleaning(r.pc)
  {
    Schedule(w, Mem(mem.orig, FinalizeStatus(MutateReadyByErr(mem.cur, failure), now)))
  }

  function StepWriteMeta(w: World, mem: Mem, want: bool, ok: bool): (r: World)
    ensures r == w.(de := r.de, view := r.view, pc := r.pc) && !Providing(r.pc) && !Cleaning(r.pc)
  {
    if !ok || w.de.None? then w.(pc := Idle)
    else
      var d := w.de.value;
      // the API server refuses a new finalizer on an object that is being deleted
      if want && d.deleting && FINALIZER !in d.finalizers then w.(pc := Idle)
      else
        var d' := d.(finalizers := Reconciled(d.finalizers, FINALIZER, want));
        if d'.deleting && d'.finalizers == [] then w.(de := None, view := None, pc := Idle)
        else w.(de := Some(d'), view := Some(d'),
                pc := if SameStatus(mem.orig, mem.cur) then Idle else WriteStatus(mem))
  }

  function StepWriteStatus(w: World, mem: Mem, ok: bool): (r: World)
    ensures r == w.(de := r.de, view := r.view, pc := r.pc) && r.pc == Idle
  {
    if !ok || w.de.None? then w.(pc := Idle)
    else
      var d' := w.de.value.(ready := mem.cur.ready, phase := mem.cur.phase, completion := mem.cur.completion);
      w.(de := Some(d'), view := Some(d'), pc := Idle)
  }

  // ---- taking the PV (Case 4) ----

  function StartProviding(w: World, e: Export, mem: Mem, inUse: bool, now: nat): (r: World)
    ensures r == w.(pc := r.pc)
  {
    if w.exportPvc.Some? && w.exportPvc.value.name == e.Names().exportPvcName then
      if w.exportPvc.value.lost || w.destroyed then Finish(w, mem, OtherError, now)
      else w.(pc := MarkUser(mem, Snap(w.pv, w.version), w.exportPvc.value.uid))
    else if w.user.None? then Finish(w, mem, TargetNotFound, now)
    else if w.destroyed then Finish(w, mem, OtherError, now)
    else if !WorkingState(w.user.value, w.pv, e) || inUse then
      Finish(w, mem.(cur := NotReady(mem.cur, RValidationFailed)), NoError, now)
    else if !NotOwnedByAnother(w.pv, e.namespace, e.name) then Finish(w, mem, PvConflict, now)
    else w.(pc := CreateExport(mem, Snap(w.pv, w.version)))
  }

  function StepCreateExport(w: World, e: Export, mem: Mem, snap: Snap, ok: bool, now: nat): (r: World)
    ensures r == w.(exportPvc := r.exportPvc, nextUid := r.nextUid, pc := r.pc) && !Cleaning(r.pc)
  {
    if !ok || w.exportPvc.Some? then Finish(w, mem, OtherError, now)
    else w.(exportPvc := Some(ExportPvc(e.Names().exportPvcName, w.nextUid, false)),
            nextUid := w.nextUid + 1,
            pc := MarkUser(mem, snap, w.nextUid))
  }

  function StepMarkUser(w: World, e: Export, mem: Mem, snap: Snap, exportUid: Uid, ok: bool, now: nat): (r: World)
    ensures r == w.(user := r.user, pc := r.pc) && !Cleaning(r.pc)
  {
    // the API server refuses a new finalizer on an object that is being deleted
    if !ok || w.user.None? || (w.user.value.deleting && FINALIZER !in w.user.value.finalizers) then
      Finish(w, mem, OtherError, now)
    else w.(user := Some(MarkExporting(w.user.value)),
            pc := if ReadyForExport(snap.pv, e) then Deploy(mem) else LendPv(mem, snap, exportUid))
  }

  function StepLendPv(w: World, e: Export, mem: Mem, snap: Snap, exportUid: Uid, ok: bool, now: nat): (r: World)
    ensures r == w.(pv := r.pv, version := r.version, takes := r.takes, pc := r.pc) && !Cleaning(r.pc)
  {
    if !ok || w.destroyed || snap.version != w.version then Finish(w, mem, OtherError, now)
    else w.(pv := Lend(snap.pv, e, exportUid), version := w.version + 1, takes := w.takes + 1, pc := Deploy(mem))
  }

  function StepDeploy(w: World, e: Export, mem: Mem, ok: bool, now: nat): (r: World)
    ensures r == w.(deploy := r.deploy, pc := r.pc) && !Cleaning(r.pc)
  {
    if !ok then Finish(w, mem, OtherError, now)
    else w.(deploy := Some(e.Names().deployName), pc := Await(mem))
  }

  /** waitingForDeploymentLaunch: Ready=True only once the stored object reports a serving pod. */
  function StepAwait(w: World, mem: Mem, ok: bool, now: nat): (r: World)
    ensures r == w.(pc := r.pc) && !Providing(r.pc) && !Cleaning(r.pc)
  {
    if ok && w.de.Some? && w.de.value.serverState == ServerReady then
      Finish(w, mem.(cur := mem.cur.(ready := Some(Verdict(True, RServerReady)))), NoError, now)
    else Finish(w, mem, DeploymentFailed, now)
  }

  // ---- giving the PV back (Cases 1 and 2, and the orphan path) ----

  function FailCleanup(w: World, why: Why, now: nat): (r: World)
    ensures r == w.(pc := r.pc) && !Providing(r.pc) && !Cleaning(r.pc)
  {
    match why
    case ForOwner(mem) => Finish(w, mem, CleanupFailed, now)
    case ForOrphan(_) => w.(pc := Idle)
  }

  // The names to delete: generated from the DataExport, or rebuilt from the annotations of an orphaned PV.
  function CleanupNames(e: Export, why: Why): (string, string) {
    match why
    case ForOwner(_) => (e.Names().deployName, e.Names().exportPvcName)
    case ForOrphan(listed) =>
      var a := listed.pv.annotations;
      (DeployNameForHash(Lookup(a, TargetKindShort), Lookup(a, HashSuffix)),
       ExportPvcNameForHash(Lookup(a, TargetKindShort), Lookup(a, HashSuffix)))
  }

  function StepDropDeploy(w: World, e: Export, why: Why, ok: bool, now: nat): (r: World)
    ensures r == w.(deploy := r.deploy, pc := r.pc) && !Providing(r.pc)
  {
    if !ok then FailCleanup(w, why, now)
    else w.(deploy := if w.deploy == Some(CleanupNames(e, why).0) then None else w.deploy, pc := DropExport(why))
  }

  function StepDropExport(w: World, e: Export, why: Why, ok: bool, now: nat): (r: World)
    ensures r == w.(exportPvc := r.exportPvc, pc := r.pc) && !Providing(r.pc)
  {
    if !ok then FailCleanup(w, why, now)
    else
      var gone := w.exportPvc.Some? && w.exportPvc.value.name == CleanupNames(e, why).1;
      Recover(w.(exportPvc := if gone then None else w.exportPvc), e, why, now)
  }

  /** The reads and decisions of recoverUserPVC. */
  function Recover(w: World, e: Export, why: Why, now: nat): (r: World)
    ensures r == w.(pc := r.pc) && !Providing(r.pc)
  {
    if w.user.None? then w.(pc := Tidy(why))
    else if why.ForOwner? && w.destroyed then FailCleanup(w, why, now)
    else
      var snap := if why.ForOwner? then Snap(w.pv, w.version) else why.listed;
      if Lookup(snap.pv.labels, DataExporter) != LABEL_ON then w.(pc := CleanRestored(why))
      else if ParseRecoveryInfo(e.hash, snap.pv, e.namespace, e.name) == Err(InvalidOriginalPolicy)
      then w.(pc := FlagPv(why, snap))
      else if !WorkingState(w.user.value, snap.pv, e) then w.(pc := RebindPv(why, snap))
      else w.(pc := CleanUser(why, snap))
  }

  function StepRebindPv(w: World, e: Export, why: Why, snap: Snap, ok: bool, now: nat): (r: World)
    ensures r == w.(pv := r.pv, version := r.version, pc := r.pc) && !Providing(r.pc)
  {
    if !ok || w.destroyed || snap.version != w.version then FailCleanup(w, why, now)
    else
      var pv := Rebind(snap.pv, e);
      w.(pv := pv, version := w.version + 1, pc := CleanUser(why, Snap(pv, w.version + 1)))
  }

  // A deleted PVC goes away with its last finalizer.
  function Released(user: UserPvc): Option<UserPvc> {
    if user.deleting && user.finalizers == [] then None else Some(user)
  }

  function StepCleanUser(w: World, why: Why, snap: Snap, ok: bool, now: nat): (r: World)
    ensures r == w.(user := r.user, pc := r.pc) && !Providing(r.pc)
  {
    if !ok || w.user.None? then FailCleanup(w, why, now)
    else w.(user := Released(UnmarkExporting(w.user.value)), pc := RestorePv(why, snap))
  }

  function StepCleanRestored(w: World, why: Why, ok: bool, now: nat): (r: World)
    ensures r == w.(user := r.user, pc := r.pc) && !Providing(r.pc)
  {
    if !ok || w.user.None? then FailCleanup(w, why, now)
    else w.(user := Released(UnmarkExporting(w.user.value)), pc := Tidy(why))
  }

  function StepRestorePv(w: World, why: Why, snap: Snap, ok: bool, now: nat): (r: World)
    ensures r == w.(pv := r.pv, version := r.version, pc := r.pc) && !Providing(r.pc)
  {
    match Restore(snap.pv)
    case None => FailCleanup(w, why, now)
    case Some(pv) =>
      if pv == snap.pv then w.(pc := Tidy(why))
      else if !ok || w.destroyed || snap.version != w.version then FailCleanup(w, why, now)
      else w.(pv := pv, version := w.version + 1, pc := Tidy(why))
  }

  // An inconsistent PV stops the give-back without an error; the finalizer stays.
  function StepFlagPv(w: World, e: Export, why: Why, snap: Snap, ok: bool, now: nat): (r: World)
    ensures r == w.(pv := r.pv, version := r.version, pc := r.pc) && !Providing(r.pc)
  {
    if !ok || w.destroyed || snap.version != w.version then FailCleanup(w, why, now)
    else
      var w' := w.(pv := MarkedInconsistent(snap.pv, e), version := w.version + 1);
      match why
      case ForOwner(mem) => Finish(w', mem, NoError, now)
      case ForOrphan(_) => w'.(pc := Idle)
  }

  /** Services, ingress and CA secret are removed; only then does the finalizer go. */
  function StepTidy(w: World, why: Why, ok: bool, now: nat): (r: World)
    ensures r == w.(pc := r.pc) && !Providing(r.pc)
  {
    match why
    case ForOrphan(_) => w.(pc := Idle)
    case ForOwner(mem) =>
      if !ok then FailCleanup(w, why, now)
      else Finish(w, mem.(cur := mem.cur.(finalizers := [])), NoError, now)
  }

  // ---- the start of a reconcile ----

  function StartOrphan(w: World, e: Export): (r: World)
    ensures r == w.(pc := r.pc) && (w.pc == Idle ==> !Providing(r.pc))
  {
    var snap := Snap(w.pv, w.version);
    if w.destroyed || Lookup(w.pv.labels, DataExporter) != LABEL_ON
       || Lookup(w.pv.annotations, StorageManagerName) != e.name
       || Lookup(w.pv.annotations, StorageManagerNamespace) != e.namespace
    then w
    else if ParseRecoveryInfo(e.hash, w.pv, e.namespace, e.name).Err? then w.(pc := FlagPv(ForOrphan(snap), snap))
    else w.(pc := DropDeploy(ForOrphan(snap)))
  }

  function StepReconcile(w: World, e: Export, now: nat, inUse: bool): (r: World)
    ensures r == w.(pc := r.pc)
  {
    if w.pc != Idle then w
    else match w.view
    case None => StartOrphan(w, e)
    case Some(d) =>
      var mem := Mem(d, d);
      if d.deleting then w.(pc := DropDeploy(ForOwner(mem)))
      else if IsExpired(d) then
        var expired := mem.(cur := if d.ready.Some? && d.ready.value.reason == RExpired then d
                                   else NotReady(d, RExpired));
        if FINALIZER in d.finalizers then w.(pc := DropDeploy(ForOwner(expired)))
        else Finish(w, expired, NoError, now)
      else if d.phase.IsTerminal() then Finish(w, mem, NoError, now)
      else if d.ready.None? then
        Finish(w, mem.(cur := NotReady(d, RPending).(finalizers := Reconciled(d.finalizers, FINALIZER, true))),
               NoError, now)
      else if d.ready.value.status != True then StartProviding(w, e, mem, inUse, now)
      else if w.deploy != Some(e.Names().deployName) then
        Finish(w, mem.(cur := NotReady(d, RPending)), NoError, now)
      else Finish(w, mem, NoError, now)
  }

  function ActProviding(w: World, e: Export, ok: bool, now: nat): World {
    match w.pc
    case CreateExport(mem, snap) => StepCreateExport(w, e, mem, snap, ok, now)
    case MarkUser(mem, snap, uid) => StepMarkUser(w, e, mem, snap, uid, ok, now)
    case LendPv(mem, snap, uid) => StepLendPv(w, e, mem, snap, uid, ok, now)
    case Deploy(mem) => StepDeploy(w, e, mem, ok, now)
    case Await(mem) => StepAwait(w, mem, ok, now)
    case _ => w
  }

  function ActCleaning(w: World, e: Export, ok: bool, now: nat): World {
    match w.pc
    case DropDeploy(why) => StepDropDeploy(w, e, why, ok, now)
    case DropExport(why) => StepDropExport(w, e, why, ok, now)
    case RebindPv(why, snap) => StepRebindPv(w, e, why, snap, ok, now)
    case CleanUser(why, snap) => StepCleanUser(w, why, snap, ok, now)
    case RestorePv(why, snap) => StepRestorePv(w, why, snap, ok, now)
    case CleanRestored(why) => StepCleanRestored(w, why, ok, now)
    case FlagPv(why, snap) => StepFlagPv(w, e, why, snap, ok, now)
    case Tidy(why) => StepTidy(w, why, ok, now)
    case _ => w
  }

  function ActWriting(w: World, ok: bool): World {
    match w.pc
    case WriteMeta(mem, want) => StepWriteMeta(w, mem, want, ok)
    case WriteStatus(mem) => StepWriteStatus(w, mem, ok)
    case _ => w
  }

  function StepAct(w: World, e: Export, ok: bool, now: nat): World {
    if Providing(w.pc) then ActProviding(w, e, ok, now)
    else if Cleaning(w.pc) then ActCleaning(w, e, ok, now)
    else ActWriting(w, ok)
  }

  // ---- everybody else ----

  function StepUserDeletesExport(w: World): World {
    if w.de.None? then w
    else if w.de.value.finalizers == [] then w.(de := None)
    else w.(de := Some(w.de.value.(deleting := true)))
  }

  function StepEditForeignFinalizers(w: World, finalizers: seq<string>): World {
    if w.de.None? || (FINALIZER in finalizers) != (FINALIZER in w.de.value.finalizers) then w
    else if w.de.value.deleting && finalizers == [] then w.(de := None)
    else w.(de := Some(w.de.value.(finalizers := finalizers)))
  }

  function StepPodReports(w: World, expired: bool): World {
    var next := if expired then IdleExpired else ServerReady;
    if w.de.None? || !ShouldSetServerState(w.de.value.serverState, next) then w
    else w.(de := Some(w.de.value.(serverState := next)))
  }

  function StepUserDeletesPvc(w: World): World {
    if w.user.None? then w else w.(user := Released(w.user.value.(deleting := true)))
  }

  // Every finalizer of the user PVC but the controller's own is released by its owner.
  function StepReleaseUserPvc(w: World): World {
    if w.user.None? then w
    else w.(user := Released(w.user.value.(finalizers :=
              if FINALIZER in w.user.value.finalizers then [FINALIZER] else [])))
  }

  // A PV whose claim is gone is reclaimed unless its policy says otherwise.
  predicate ClaimIsGone(w: World, e: Export) {
    && w.pv.claimRef.Some?
    && (w.pv.claimRef.value == e.UserRef() ==> w.user.None?)
    && (w.pv.claimRef.value != e.UserRef() ==>
          w.exportPvc.None? || w.pv.claimRef.value != e.ExportRef(w.exportPvc.value.uid))
  }

  function StepReclaim(w: World, e: Export): World {
    if w.pv.policy == Retain || !ClaimIsGone(w, e) then w else w.(destroyed := true)
  }

  function Next(w: World, e: Export, ev: Event): World {
    match ev
    case Reconcile(now, inUse) => StepReconcile(w, e, now, inUse)
    case Act(ok, now) => StepAct(w, e, ok, now)
    case Crash => w.(pc := Idle)
    case Refresh => w.(view := w.de)
    case UserDeletesExport => StepUserDeletesExport(w)
    case ForceRemoveExport => w.(de := None, forced := true)
    case EditForeignFinalizers(finalizers) => StepEditForeignFinalizers(w, finalizers)
    case PodReports(expired) => StepPodReports(w, expired)
    case UserDeletesPvc => StepUserDeletesPvc(w)
    case ReleaseUserPvc => StepReleaseUserPvc(w)
    case BinderReports(bound) =>
      if w.user.None? then w else w.(user := Some(w.user.value.(bound := bound)))
    case TouchPv(pv) =>
      if w.destroyed || !SameButForeign(w.pv, pv) then w else w.(pv := pv, version := w.version + 1)
    case AdminSetsPolicy(policy) =>
      if w.destroyed || DataExporter in w.pv.labels then w
      else w.(pv := w.pv.(policy := policy), base := policy, version := w.version + 1)
    case RemoveExportPvc => w.(exportPvc := None)
    case LoseExportPvc(lost) =>
      if w.exportPvc.None? then w else w.(exportPvc := Some(w.exportPvc.value.(lost := lost)))
    case RemoveDeployment => w.(deploy := None)
    case Reclaim => StepReclaim(w, e)
  }

  /** The world after a sequence of events. */
  function Run(w: World, e: Export, evs: seq<Event>): World {
    if evs == [] then w
    else Next(Run(w, e, evs[..|evs| - 1]), e, evs[|evs| - 1])
  }

  /** A bound user PVC on an unlent PV, and a DataExport just created for it. */
  predicate Initial(w: World, e: Export) {
    && e.WellFormed()
    && NoMarks(w.pv) && DataExporterInconsistent !in w.pv.labels
    && w.pv.claimRef == Some(e.UserRef()) && w.pv.policy == w.base
    && !w.destroyed && w.exportPvc.None? && w.deploy.None?
    && w.user.Some? && Unmarked(w.user.value)
    && w.de.Some? && w.view == w.de
    && FINALIZER !in w.de.value.finalizers && w.de.value.ready.None?
    && w.de.value.phase == Unset && w.de.value.completion.None? && w.de.value.serverState == NoState
    && w.pc == Idle && w.takes == 0 && !w.forced && w.nextUid > 0
  }
}
