// What the PV loan promises, over every run.
module PvLoanTheorems {
  import opened Options
  import opened Finalizers
  import opened Lifecycle
  import opened PvLoanObjects
  import opened PvLoanMachine
  import opened PvLoanInvariant

  /** A PV on loan is Retain, labelled and remembers its policy; the export PVC may go at any moment. */
  lemma LoanSafety(w0: World, e: Export, evs: seq<Event>)
    requires Initial(w0, e)
    ensures var w := Run(w0, e, evs);
            OnLoan(w, e) ==>
              && w.pv.policy == Retain
              && DataExporter in w.pv.labels && w.pv.labels[DataExporter] == LABEL_ON
              && OriginalReclaimPolicy in w.pv.annotations
              && w.pv.annotations[OriginalReclaimPolicy] == PolicyName(w.base)
              && w.user.Some? && FINALIZER in w.user.value.finalizers
              && !Next(Next(w, e, RemoveExportPvc), e, Reclaim).destroyed
  {
    RunInv(w0, e, evs);
  }

  /** The volume is never reclaimed while the user PVC exists. */
  lemma DataSurvives(w0: World, e: Export, evs: seq<Event>)
    requires Initial(w0, e)
    ensures Run(w0, e, evs).user.Some? ==> !Run(w0, e, evs).destroyed
  {
    RunInv(w0, e, evs);
  }

  /** Once our finalizer is off the DataExport, a user PVC that still exists has its volume back as it was. */
  lemma GivenBack(w0: World, e: Export, evs: seq<Event>)
    requires Initial(w0, e)
    ensures var w := Run(w0, e, evs);
            !w.forced && (w.de.None? || FINALIZER !in w.de.value.finalizers) && w.user.Some? ==>
              && w.pv.policy == w.base && w.pv.claimRef == Some(e.UserRef()) && NoMarks(w.pv)
              && Unmarked(w.user.value)
  {
    RunInv(w0, e, evs);
  }

  /** Deletion cannot skip the give-back: the finalizer is there whenever the PV is on loan. */
  lemma LoanImpliesFinalizer(w0: World, e: Export, evs: seq<Event>)
    requires Initial(w0, e)
    ensures var w := Run(w0, e, evs);
            OnLoan(w, e) && !w.forced ==> w.de.Some? && FINALIZER in w.de.value.finalizers
  {
    RunInv(w0, e, evs);
    UserIsNotExport(e, 0);
  }

  /** The PV is taken at most once, and no rerun ever marks it inconsistent. */
  lemma AtMostOneLoan(w0: World, e: Export, evs: seq<Event>)
    requires Initial(w0, e)
    ensures Run(w0, e, evs).takes <= 1
    ensures DataExporterInconsistent !in Run(w0, e, evs).pv.labels && !Run(w0, e, evs).pc.FlagPv?
  {
    RunInv(w0, e, evs);
  }

  /** While the marks stay on, no event rewrites the saved policy. */
  lemma SavedPolicyFixed(w0: World, e: Export, evs: seq<Event>, ev: Event)
    requires Initial(w0, e)
    ensures var w, w' := Run(w0, e, evs), Run(w0, e, evs + [ev]);
            DataExporter in w.pv.labels && DataExporter in w'.pv.labels ==>
              Lookup(w'.pv.annotations, OriginalReclaimPolicy) == Lookup(w.pv.annotations, OriginalReclaimPolicy)
  {
    assert (evs + [ev])[..|evs + [ev]| - 1] == evs;
    RunInv(w0, e, evs);
    RunInv(w0, e, evs + [ev]);
    BaseMovesOnlyUnlent(Run(w0, e, evs), e, ev);
  }

  lemma BaseMovesOnlyUnlent(w: World, e: Export, ev: Event)
    ensures Next(w, e, ev).base != w.base ==> ev.AdminSetsPolicy? && DataExporter !in w.pv.labels
  {
    match ev
    case Act(ok, now) => assert Next(w, e, ev) == StepAct(w, e, ok, now);
    case Reconcile(now, inUse) => assert Next(w, e, ev) == StepReconcile(w, e, now, inUse);
    case _ =>
  }

  // ---- the whole PV comes back, foreign keys included ----

  predicate Untouched(evs: seq<Event>) {
    forall i | 0 <= i < |evs| :: !evs[i].TouchPv? && !evs[i].AdminSetsPolicy?
  }

  // Strip the marks and the controller has changed nothing else.
  predicate ForeignKept(pv: PersistentVolume, pv0: PersistentVolume) {
    pv.annotations - EXPORT_KEYS == pv0.annotations && pv.labels - {DataExporter} == pv0.labels
  }

  lemma EditsKeepForeign(pv: PersistentVolume, pv0: PersistentVolume, e: Export, uid: Uid)
    requires ForeignKept(pv, pv0)
    ensures ForeignKept(Lend(pv, e, uid), pv0) && ForeignKept(Rebind(pv, e), pv0)
    ensures Restore(pv).Some? ==> ForeignKept(Restore(pv).value, pv0)
  {
    var lent := Lend(pv, e, uid);
    assert lent.annotations - EXPORT_KEYS == pv.annotations - EXPORT_KEYS;
    assert lent.labels - {DataExporter} == pv.labels - {DataExporter};
    if Restore(pv).Some? {
      var r := Restore(pv).value;
      assert r.annotations - EXPORT_KEYS == pv.annotations - EXPORT_KEYS;
      assert r.labels - {DataExporter} == pv.labels - {DataExporter};
    }
  }

  lemma ProvidingKeepsForeign(w: World, e: Export, ok: bool, now: nat, pv0: PersistentVolume)
    requires InvSnap(w) && Providing(w.pc) && ForeignKept(w.pv, pv0)
    ensures ForeignKept(ActProviding(w, e, ok, now).pv, pv0)
  {
    if w.pc.LendPv? {
      EditsKeepForeign(w.pv, pv0, e, w.pc.exportUid);
    }
  }

  lemma CleaningKeepsForeign(w: World, e: Export, ok: bool, now: nat, pv0: PersistentVolume)
    requires InvSnap(w) && Cleaning(w.pc) && !w.pc.FlagPv? && ForeignKept(w.pv, pv0)
    ensures ForeignKept(ActCleaning(w, e, ok, now).pv, pv0)
  {
    EditsKeepForeign(w.pv, pv0, e, 0);
  }

  lemma ActKeepsForeign(w: World, e: Export, ok: bool, now: nat, pv0: PersistentVolume)
    requires InvSnap(w) && !w.pc.FlagPv? && ForeignKept(w.pv, pv0)
    ensures ForeignKept(StepAct(w, e, ok, now).pv, pv0)
    ensures StepAct(w, e, ok, now).base == w.base
  {
    if Providing(w.pc) {
      ProvidingKeepsForeign(w, e, ok, now, pv0);
    } else if Cleaning(w.pc) {
      CleaningKeepsForeign(w, e, ok, now, pv0);
    }
  }

  lemma {:induction false} ForeignKeptOverRun(w0: World, e: Export, evs: seq<Event>)
    requires Initial(w0, e) && Untouched(evs)
    ensures ForeignKept(Run(w0, e, evs).pv, w0.pv) && Run(w0, e, evs).base == w0.base
  {
    if evs == [] {
      assert w0.pv.annotations - EXPORT_KEYS == w0.pv.annotations;
      assert w0.pv.labels - {DataExporter} == w0.pv.labels;
    } else {
      var before, ev := evs[..|evs| - 1], evs[|evs| - 1];
      ForeignKeptOverRun(w0, e, before);
      RunInv(w0, e, before);
      NextKeepsForeign(Run(w0, e, before), e, ev, w0.pv);
    }
  }

  lemma NextKeepsForeign(w: World, e: Export, ev: Event, pv0: PersistentVolume)
    requires InvSnap(w) && !w.pc.FlagPv? && ForeignKept(w.pv, pv0) && !ev.TouchPv? && !ev.AdminSetsPolicy?
    ensures ForeignKept(Next(w, e, ev).pv, pv0) && Next(w, e, ev).base == w.base
  {
    match ev
    case Act(ok, now) => ActKeepsForeign(w, e, ok, now, pv0);
    case Reconcile(now, inUse) => assert Next(w, e, ev) == StepReconcile(w, e, now, inUse);
    case _ =>
  }

  /** With nobody else writing the PV, what comes back is the very object that was lent. */
  lemma WholePvComesBack(w0: World, e: Export, evs: seq<Event>)
    requires Initial(w0, e) && Untouched(evs)
    ensures var w := Run(w0, e, evs);
            !w.forced && (w.de.None? || FINALIZER !in w.de.value.finalizers) && w.user.Some? ==> w.pv == w0.pv
  {
    var w := Run(w0, e, evs);
    ForeignKeptOverRun(w0, e, evs);
    GivenBack(w0, e, evs);
    if NoMarks(w.pv) {
      assert w.pv.annotations - EXPORT_KEYS == w.pv.annotations;
      assert w.pv.labels - {DataExporter} == w.pv.labels;
    }
  }

  // ---- crash-resume and the orphan path end in the same place ----

  datatype Objects = Objects(
    pv: PersistentVolume, user: Option<UserPvc>, exportPvc: Option<ExportPvc>, deploy: Option<string>)

  function ObjectsOf(w: World): Objects {
    Objects(w.pv, w.user, w.exportPvc, w.deploy)
  }

  /** Where a completed give-back leaves the cluster. */
  function Target(w: World, e: Export): Objects {
    Objects(
      if DataExporter in w.pv.labels && Restore(Rebind(w.pv, e)).Some? then Restore(Rebind(w.pv, e)).value else w.pv,
      if w.user.Some? then Some(UnmarkExporting(w.user.value)) else None,
      None, None)
  }

  // Somebody is still there to give the PV back to.
  predicate UserStays(w: World) {
    w.user.Some? && !w.user.value.deleting
  }

  lemma UnmarkTwice(user: UserPvc)
    ensures UnmarkExporting(UnmarkExporting(user)) == UnmarkExporting(user)
  {
    assert user.annotations - PVC_KEYS - PVC_KEYS == user.annotations - PVC_KEYS;
  }

  lemma RestoreAfterRebind(pv: PersistentVolume, e: Export, original: ReclaimPolicy)
    requires Marked(pv, e, original)
    ensures Marked(Rebind(pv, e), e, original)
    ensures Restore(Rebind(pv, e)).Some? && DataExporter !in Restore(Rebind(pv, e)).value.labels
    ensures Rebind(Rebind(pv, e), e) == Rebind(pv, e)
    ensures pv.claimRef == Some(e.UserRef()) ==> Rebind(pv, e) == pv
  {
    ParsePolicyName(original);
  }

  // What the target is made of once the PV or the user PVC has been dealt with.
  lemma TargetAfterEdit(w: World, w': World, e: Export)
    requires Inv(w, e) && UserStays(w) && UserStays(w')
    requires w'.user == w.user || w'.user == Some(UnmarkExporting(w.user.value))
    requires w'.pv == w.pv || (Lent(w, e) && w'.pv == Rebind(w.pv, e))
             || (Lent(w, e) && w.pv.claimRef == Some(e.UserRef()) && Some(w'.pv) == Restore(w.pv))
    ensures Target(w', e) == Target(w, e)
  {
    UnmarkTwice(w.user.value);
    if Lent(w, e) {
      RestoreAfterRebind(w.pv, e, w.base);
    }
  }

  /** No step of a give-back, successful or failed, moves the place where it will end. */
  lemma CleaningKeepsTarget(w: World, e: Export, ok: bool, now: nat)
    requires Inv(w, e) && UserStays(w) && Cleaning(w.pc)
    ensures var w' := ActCleaning(w, e, ok, now); Target(w', e) == Target(w, e) && UserStays(w')
  {
    var w' := ActCleaning(w, e, ok, now);
    CleaningEdits(w, e, ok, now);
    TargetAfterEdit(w, w', e);
  }

  lemma CleaningEdits(w: World, e: Export, ok: bool, now: nat)
    requires Inv(w, e) && UserStays(w) && Cleaning(w.pc)
    ensures var w' := ActCleaning(w, e, ok, now);
            && (w'.user == w.user || w'.user == Some(UnmarkExporting(w.user.value)))
            && (w'.pv == w.pv || (Lent(w, e) && w'.pv == Rebind(w.pv, e))
                || (Lent(w, e) && w.pv.claimRef == Some(e.UserRef()) && Some(w'.pv) == Restore(w.pv)))
  {}

  /** Controller steps alone, whatever fails or crashes on the way, keep heading for the same objects. */
  predicate ControllerOnly(ev: Event) {
    ev.Reconcile? || ev.Act? || ev.Crash? || ev.Refresh?
  }

  lemma NonCleaningKeepsObjects(w: World, e: Export, ev: Event)
    requires !Providing(w.pc) && (Cleaning(w.pc) ==> !ev.Act?) && ControllerOnly(ev)
    ensures ObjectsOf(Next(w, e, ev)) == ObjectsOf(w)
  {
    match ev
    case Reconcile(now, inUse) => assert Next(w, e, ev) == StepReconcile(w, e, now, inUse);
    case Act(ok, now) =>
      match w.pc {
        case WriteMeta(mem, want) => assert Next(w, e, ev) == StepWriteMeta(w, mem, want, ok);
        case WriteStatus(mem) => assert Next(w, e, ev) == StepWriteStatus(w, mem, ok);
        case Idle =>
      }
    case _ =>
  }

  lemma FinalCleaningStays(w: World, e: Export, ok: bool, now: nat)
    requires Cleaning(w.pc)
    ensures var w' := ActCleaning(w, e, ok, now); w'.view == w.view && !Providing(w'.pc)
  {}

  lemma FinalWritingStays(w: World, ok: bool)
    requires InvView(w) && Final(w) && !Providing(w.pc) && !Cleaning(w.pc)
    ensures Final(ActWriting(w, ok)) && !Providing(ActWriting(w, ok).pc)
  {}

  lemma FinalActStays(w: World, e: Export, ok: bool, now: nat)
    requires InvView(w) && Final(w) && !Providing(w.pc)
    ensures Final(StepAct(w, e, ok, now)) && !Providing(StepAct(w, e, ok, now).pc)
  {
    if Cleaning(w.pc) {
      FinalCleaningStays(w, e, ok, now);
    } else {
      FinalWritingStays(w, ok);
    }
  }

  lemma FinalReconcileStays(w: World, e: Export, now: nat, inUse: bool)
    requires Final(w) && !Providing(w.pc)
    ensures Final(StepReconcile(w, e, now, inUse)) && !Providing(StepReconcile(w, e, now, inUse).pc)
  {}

  lemma FinalStays(w: World, e: Export, ev: Event)
    requires InvView(w) && Final(w) && !Providing(w.pc) && ControllerOnly(ev)
    ensures Final(Next(w, e, ev)) && !Providing(Next(w, e, ev).pc)
  {
    match ev
    case Reconcile(now, inUse) => FinalReconcileStays(w, e, now, inUse);
    case Act(ok, now) => FinalActStays(w, e, ok, now);
    case _ =>
  }

  lemma {:induction false} CrashesConverge(w: World, e: Export, evs: seq<Event>)
    requires Inv(w, e) && Final(w) && !Providing(w.pc) && UserStays(w)
    requires forall i | 0 <= i < |evs| :: ControllerOnly(evs[i])
    ensures var w' := Run(w, e, evs);
            Inv(w', e) && Final(w') && !Providing(w'.pc) && UserStays(w') && Target(w', e) == Target(w, e)
  {
    if evs != [] {
      var before, ev := evs[..|evs| - 1], evs[|evs| - 1];
      CrashesConverge(w, e, before);
      var v := Run(w, e, before);
      NextInv(v, e, ev);
      FinalStays(v, e, ev);
      if Cleaning(v.pc) && ev.Act? {
        CleaningKeepsTarget(v, e, ev.ok, ev.now);
      } else {
        NonCleaningKeepsObjects(v, e, ev);
      }
    }
  }

  /** Reaching the last step of a give-back means the objects are the target. */
  lemma TidyIsTarget(w: World, e: Export, w0: World)
    requires Inv(w, e) && w.pc.Tidy? && UserStays(w) && Target(w, e) == Target(w0, e)
    requires w.exportPvc.None? && w.deploy.None?
    ensures ObjectsOf(w) == Target(w0, e)
  {
    assert Free(w, e) && Unmarked(w.user.value);
    assert w.user.value.annotations - PVC_KEYS == w.user.value.annotations;
  }

  // ---- an uninterrupted give-back ----

  function Acts(w: World, e: Export, n: nat, now: nat): World
    decreases n
  {
    if n == 0 then w else Acts(StepAct(w, e, true, now), e, n - 1, now)
  }

  function Iterate(f: World -> World, w: World, n: nat): World
    decreases n
  {
    if n == 0 then w else Iterate(f, f(w), n - 1)
  }

  lemma {:induction false} IterateAdd(f: World -> World, w: World, a: nat, b: nat)
    ensures Iterate(f, w, a + b) == Iterate(f, Iterate(f, w, a), b)
    decreases a
  {
    if a > 0 {
      IterateAdd(f, f(w), a - 1, b);
      assert Iterate(f, w, a + b) == Iterate(f, f(w), a - 1 + b);
    }
  }

  lemma {:induction false} ActsIterate(f: World -> World, w: World, e: Export, n: nat, now: nat)
    requires forall v :: f(v) == StepAct(v, e, true, now)
    ensures Acts(w, e, n, now) == Iterate(f, w, n)
    decreases n
  {
    if n > 0 {
      ActsIterate(f, f(w), e, n - 1, now);
    }
  }

  /** Writing on is writing: a run of writes in two parts. */
  lemma ActsAdd(w: World, e: Export, a: nat, b: nat, now: nat)
    ensures Acts(w, e, a + b, now) == Acts(Acts(w, e, a, now), e, b, now)
  {
    var f := (v: World) => StepAct(v, e, true, now);
    ActsIterate(f, w, e, a + b, now);
    ActsIterate(f, w, e, a, now);
    ActsIterate(f, Acts(w, e, a, now), e, b, now);
    IterateAdd(f, w, a, b);
  }

  lemma {:induction false} ActsConverge(w: World, e: Export, n: nat, now: nat)
    requires Inv(w, e) && Final(w) && !Providing(w.pc) && UserStays(w)
    ensures var w' := Acts(w, e, n, now);
            Inv(w', e) && Final(w') && UserStays(w') && Target(w', e) == Target(w, e)
    decreases n
  {
    if n > 0 {
      CrashesConverge(w, e, [Act(true, now)]);
      assert [Act(true, now)][..0] == [];
      assert Run(w, e, [Act(true, now)]) == StepAct(w, e, true, now);
      ActsConverge(StepAct(w, e, true, now), e, n - 1, now);
    }
  }

  // Each give-back is at most five writes long before its last step.
  lemma GiveBackReachesTidy(w: World, e: Export, why: Why, now: nat) returns (n: nat)
    requires Inv(w, e) && w.pc == DropDeploy(why) && UserStays(w)
    requires why.ForOrphan? ==> why.listed == Snap(w.pv, w.version)
    ensures n <= 5 && Acts(w, e, n, now).pc == Tidy(why)
    ensures Acts(w, e, n, now).exportPvc.None? && Acts(w, e, n, now).deploy.None?
  {
    var w1 := StepAct(w, e, true, now);
    var w2 := StepAct(w1, e, true, now);
    DropDeployInv(w, e, why, true, now);
    DropExportInv(w1, e, why, true, now);
    CleanupNamesMatch(w, e, why);
    assert w1.deploy.None? && w1.pc == DropExport(why);
    assert w2.exportPvc.None? && w2.deploy.None? && w2.user == w.user && w2.version == w.version && !w2.destroyed;
    var snap := Snap(w.pv, w.version);
    assert w2.pc == CleanRestored(why) || w2.pc == RebindPv(why, snap) || w2.pc == CleanUser(why, snap);
    if w2.pc.CleanRestored? {
      n := 3;
      assert Acts(w, e, 3, now) == Acts(w1, e, 2, now) == Acts(w2, e, 1, now);
      assert Acts(w2, e, 1, now) == Acts(StepAct(w2, e, true, now), e, 0, now);
    } else if w2.pc.CleanUser? {
      CleanThenRestore(w2, e, why, snap, now);
      n := 4;
      assert Acts(w, e, 4, now) == Acts(w1, e, 3, now) == Acts(w2, e, 2, now);
    } else {
      var w3 := StepAct(w2, e, true, now);
      RebindPvInv(w2, e, why, snap, true, now);
      CleanThenRestore(w3, e, why, Snap(w3.pv, w3.version), now);
      n := 5;
      assert Acts(w, e, 5, now) == Acts(w1, e, 4, now) == Acts(w2, e, 3, now) == Acts(w3, e, 2, now);
    }
  }

  lemma CleanThenRestore(w: World, e: Export, why: Why, snap: Snap, now: nat)
    requires Inv(w, e) && w.pc == CleanUser(why, snap) && snap.version == w.version && UserStays(w)
    ensures var w' := Acts(w, e, 2, now);
            w'.pc == Tidy(why) && w'.exportPvc == w.exportPvc && w'.deploy == w.deploy
  {
    var w1 := StepAct(w, e, true, now);
    assert w1.pc == RestorePv(why, snap) && w1.version == w.version && !w1.destroyed;
    RestoreOfMarked(snap.pv, e, w.base);
    assert Acts(w, e, 2, now) == Acts(w1, e, 1, now);
    assert Acts(w1, e, 1, now) == Acts(StepAct(w1, e, true, now), e, 0, now);
  }

  /** The names rebuilt from the annotations are the ones everything was created under. */
  lemma CleanupNamesMatch(w: World, e: Export, why: Why)
    requires Inv(w, e) && w.pc == DropDeploy(why)
    ensures CleanupNames(e, why) == (e.Names().deployName, e.Names().exportPvcName)
  {
    if why.ForOrphan? {
      SnapMarks(w, e, why.listed);
      ParseOfMarked(why.listed.pv, e, w.base);
    }
  }

  /** Deletion, idle expiry and orphan recovery all leave the same Deployment, export PVC, PV and user PVC. */
  lemma GiveBackEndsInTarget(w: World, e: Export, why: Why, now: nat) returns (n: nat)
    requires Inv(w, e) && w.pc == DropDeploy(why) && UserStays(w)
    requires why.ForOrphan? ==> why.listed == Snap(w.pv, w.version)
    ensures n <= 5 && Acts(w, e, n, now).pc == Tidy(why)
    ensures ObjectsOf(Acts(w, e, n, now)) == Target(w, e)
  {
    n := GiveBackReachesTidy(w, e, why, now);
    ActsConverge(w, e, n, now);
    TidyIsTarget(Acts(w, e, n, now), e, w);
  }

  lemma OrphanEqualsNormal(w: World, e: Export, now: nat) returns (n: nat, m: nat)
    requires Inv(w, e) && w.pc == Idle && Lent(w, e) && UserStays(w)
    requires w.view.Some? && w.view.value.deleting
    ensures var removed := w.(de := None, view := None, forced := true);
            var normal := Acts(StepReconcile(w, e, now, false), e, n, now);
            var orphan := Acts(StepReconcile(removed, e, now, false), e, m, now);
            normal.pc.Tidy? && orphan.pc.Tidy? && ObjectsOf(normal) == ObjectsOf(orphan) == Target(w, e)
  {
    var w1 := StepReconcile(w, e, now, false);
    ReconcileInv(w, e, now, false);
    n := GiveBackEndsInTarget(w1, e, w1.pc.why, now);
    var removed := w.(de := None, view := None, forced := true);
    ForceRemoveExportInv(w, e);
    RefreshInv(w.(de := None, forced := true), e);
    assert removed == w.(de := None, forced := true).(view := None);
    var w2 := StepReconcile(removed, e, now, false);
    ReconcileInv(removed, e, now, false);
    ParseOfMarked(w.pv, e, w.base);
    assert Target(w2, e) == Target(w, e) == Target(w1, e);
    m := GiveBackEndsInTarget(w2, e, w2.pc.why, now);
  }

  /** After any failures and crashes, one clean rerun ends where an uninterrupted give-back would have. */
  lemma RerunAfterCrashes(w: World, e: Export, evs: seq<Event>, now: nat) returns (n: nat)
    requires Inv(w, e) && Final(w) && !Providing(w.pc) && UserStays(w)
    requires forall i | 0 <= i < |evs| :: ControllerOnly(evs[i])
    requires StepReconcile(Run(w, e, evs), e, now, false).pc.DropDeploy? && Run(w, e, evs).pc == Idle
    ensures ObjectsOf(Acts(StepReconcile(Run(w, e, evs), e, now, false), e, n, now)) == Target(w, e)
  {
    CrashesConverge(w, e, evs);
    var v := Run(w, e, evs);
    ReconcileInv(v, e, now, false);
    var v' := StepReconcile(v, e, now, false);
    assert Target(v', e) == Target(v, e);
    n := GiveBackEndsInTarget(v', e, v'.pc.why, now);
  }
}
