// Runs from a fresh DataExport into the states in which the PV loan loses the PV or its saved policy.
module PvLoanRuns {
  import opened Options
  import opened Finalizers
  import opened Lifecycle
  import opened PvLoanObjects
  import opened PvLoanMachine
  import opened PvLoanInvariant
  import opened PvLoanTheorems
  import opened PvLoanLimits

  // An export nobody else holds on to, of a PVC in working state.
  predicate Plain(w: World) {
    && w.user.Some? && w.user.value.bound && !w.user.value.deleting && w.user.value.finalizers == []
    && w.de.Some? && !w.de.value.deleting && w.de.value.finalizers == []
  }

  // What the first reconcile stores: our finalizer, then the Pending status.
  function Accepted(d: DataExport): DataExport {
    d.(finalizers := [FINALIZER], ready := Some(Verdict(False, RPending)), phase := Pending)
  }

  /** The run stored the accepted version with its third event. */
  predicate WasAccepted(w0: World, e: Export, evs: seq<Event>) {
    |evs| >= 3 && w0.de.Some? && Run(w0, e, evs[..3]).de == Some(Accepted(w0.de.value))
  }

  lemma Append(w0: World, e: Export, evs: seq<Event>, ev: Event) returns (more: seq<Event>)
    requires WasAccepted(w0, e, evs)
    ensures more == evs + [ev] && Run(w0, e, more) == Next(Run(w0, e, evs), e, ev)
    ensures WasAccepted(w0, e, more)
  {
    more := evs + [ev];
    Extend(w0, e, evs, ev);
    assert more[..3] == evs[..3];
  }

  lemma AcceptedRun(w0: World, e: Export) returns (evs: seq<Event>)
    requires Initial(w0, e) && Plain(w0)
    ensures WasAccepted(w0, e, evs)
    ensures var w := Run(w0, e, evs);
            && w.pc == Idle && w.de == Some(Accepted(w0.de.value)) && w.view == w.de
            && w.user == w0.user && w.pv == w0.pv && w.base == w0.base
            && w.exportPvc.None? && w.deploy.None? && !w.destroyed && !w.forced && w.takes == 0
  {
    evs := [Reconcile(0, false)];
    Extend(w0, e, [], Reconcile(0, false));
    assert [] + [Reconcile(0, false)] == evs;
    assert Run(w0, e, evs).pc.WriteMeta?;
    Extend(w0, e, evs, Act(true, 0));
    evs := evs + [Act(true, 0)];
    assert Run(w0, e, evs).pc.WriteStatus?;
    Extend(w0, e, evs, Act(true, 0));
    evs := evs + [Act(true, 0)];
    assert evs[..3] == evs;
    assert [] + [FINALIZER] == [FINALIZER];
    assert Run(w0, e, evs).de.value == Accepted(w0.de.value);
  }

  lemma CreatedRun(w0: World, e: Export) returns (evs: seq<Event>)
    requires Initial(w0, e) && Plain(w0)
    ensures WasAccepted(w0, e, evs)
    ensures var w := Run(w0, e, evs);
            && w.pc.MarkUser? && w.pc.snap == Snap(w0.pv, w.version)
            && w.de == Some(Accepted(w0.de.value)) && w.view == w.de
            && w.user == w0.user && w.pv == w0.pv && w.base == w0.base
            && w.exportPvc.Some? && w.deploy.None? && !w.destroyed && !w.forced && w.takes == 0 && Inv(w, e)
  {
    evs := AcceptedRun(w0, e);
    var w3 := Run(w0, e, evs);
    RunInv(w0, e, evs);
    evs := Append(w0, e, evs, Reconcile(0, false));
    var w4 := Run(w0, e, evs);
    assert w4 == StepReconcile(w3, e, 0, false) && w4.pc.CreateExport?;
    evs := Append(w0, e, evs, Act(true, 0));
    var w5 := Run(w0, e, evs);
    assert w5 == ActProviding(w4, e, true, 0) && w5.pc.MarkUser?;
    RunInv(w0, e, evs);
  }

  lemma LentRun(w0: World, e: Export) returns (evs: seq<Event>)
    requires Initial(w0, e) && Plain(w0)
    ensures WasAccepted(w0, e, evs)
    ensures var w := Run(w0, e, evs);
            && w.pc == Idle && w.de == Some(Accepted(w0.de.value)) && w.view == w.de
            && w.user == Some(MarkExporting(w0.user.value)) && w.base == w0.base
            && OnLoan(w, e) && !w.forced && !w.destroyed && Inv(w, e)
  {
    evs := CreatedRun(w0, e);
    var w5 := Run(w0, e, evs);
    evs := Append(w0, e, evs, Act(true, 0));
    var w6 := Run(w0, e, evs);
    assert w6 == ActProviding(w5, e, true, 0);
    assert w6.pc.LendPv?;
    evs := Append(w0, e, evs, Act(true, 0));
    assert Run(w0, e, evs) == ActProviding(w6, e, true, 0);
    evs := Append(w0, e, evs, Crash);
    RunInv(w0, e, evs);
  }

  lemma DeletedRun(w0: World, e: Export) returns (evs: seq<Event>)
    requires Initial(w0, e) && Plain(w0)
    ensures WasAccepted(w0, e, evs)
    ensures var w := Run(w0, e, evs);
            && w.pc == Idle && w.view.Some? && w.view.value.deleting && OnLoan(w, e)
            && w.user == Some(MarkExporting(w0.user.value)) && w.base == w0.base
            && Inv(w, e) && !w.forced && !w.destroyed
  {
    evs := LentRun(w0, e);
    var w := Run(w0, e, evs);
    evs := Append(w0, e, evs, UserDeletesExport);
    evs := Append(w0, e, evs, Refresh);
    SamePv(w, Run(w0, e, evs), e);
    RunInv(w0, e, evs);
  }

  lemma ReconcileDeleted(w: World, e: Export)
    requires w.pc == Idle && w.view.Some? && w.view.value.deleting
    ensures StepReconcile(w, e, 0, false) == w.(pc := DropDeploy(ForOwner(Mem(w.view.value, w.view.value))))
  {}

  lemma OnLoanMeansRebind(w: World, e: Export, why: Why)
    requires Inv(w, e) && w.pc == DropExport(why) && why.ForOwner? && OnLoan(w, e) && w.user.Some? && !w.destroyed
    ensures StepDropExport(w, e, why, true, 0).pc == RebindPv(why, Snap(w.pv, w.version))
    ensures StepDropExport(w, e, why, true, 0).exportPvc.None?
  {
    SnapMarks(w, e, Snap(w.pv, w.version));
  }

  lemma DroppedRun(w0: World, e: Export) returns (evs: seq<Event>)
    requires Initial(w0, e) && Plain(w0)
    ensures WasAccepted(w0, e, evs)
    ensures var w := Run(w0, e, evs);
            && w.pc.RebindPv? && w.pc.why.ForOwner? && w.pc.snap == Snap(w.pv, w.version) && w.exportPvc.None?
            && w.user == Some(MarkExporting(w0.user.value)) && w.base == w0.base
            && Inv(w, e) && !w.forced && !w.destroyed
  {
    evs := DeletedRun(w0, e);
    var w9 := Run(w0, e, evs);
    var why := ForOwner(Mem(w9.view.value, w9.view.value));
    evs := Append(w0, e, evs, Reconcile(0, false));
    ReconcileDeleted(w9, e);
    var w10 := Run(w0, e, evs);
    evs := Append(w0, e, evs, Act(true, 0));
    var w11 := Run(w0, e, evs);
    assert w11 == StepDropDeploy(w10, e, why, true, 0);
    RunInv(w0, e, evs);
    SamePv(w9, w11, e);
    evs := Append(w0, e, evs, Act(true, 0));
    assert Run(w0, e, evs) == StepDropExport(w11, e, why, true, 0);
    OnLoanMeansRebind(w11, e, why);
    RunInv(w0, e, evs);
  }

  /** The PV is back on the user PVC, which is about to be unmarked. */
  lemma RebindRun(w0: World, e: Export) returns (evs: seq<Event>)
    requires Initial(w0, e) && Plain(w0)
    ensures WasAccepted(w0, e, evs)
    ensures var w := Run(w0, e, evs);
            && w.pc.CleanUser? && w.pc.snap == Snap(w.pv, w.version) && w.exportPvc.None?
            && w.user == Some(MarkExporting(w0.user.value)) && w.base == w0.base
            && Inv(w, e) && !w.forced && !w.destroyed
  {
    evs := DroppedRun(w0, e);
    var w := Run(w0, e, evs);
    evs := Append(w0, e, evs, Act(true, 0));
    assert Run(w0, e, evs) == StepRebindPv(w, e, w.pc.why, w.pc.snap, true, 0);
    RunInv(w0, e, evs);
  }

  lemma Unmark(user: UserPvc)
    requires user.finalizers == [] && !user.deleting
    ensures MarkExporting(user).finalizers == [FINALIZER]
    ensures UnmarkExporting(MarkExporting(user)).finalizers == []
  {
    assert [] + [FINALIZER] == [FINALIZER];
    assert Without([FINALIZER], FINALIZER) == [];
  }

  // ---- the PV is lost ----

  /** At the unmark write, with nobody else holding the PVC: deleted, unmarked, crashed. */
  lemma DeletedBeforeUnmark(w: World, e: Export)
    requires Inv(w, e) && w.pc.CleanUser? && w.user.Some? && w.user.value.finalizers == [FINALIZER]
    ensures var deleted := Next(w, e, UserDeletesPvc);
            var unmarked := Next(deleted, e, Act(true, 0));
            Abandoned(Next(unmarked, e, Crash), e) && unmarked.forced == w.forced
  {
    var deleted := Next(w, e, UserDeletesPvc);
    assert deleted == w.(user := Some(w.user.value.(deleting := true)));
    NextInv(w, e, UserDeletesPvc);
    UnmarkLoses(deleted, e);
    assert Next(deleted, e, Act(true, 0)) == StepCleanUser(deleted, deleted.pc.why, deleted.pc.snap, true, 0);
  }

  /** The user PVC is deleted while the give-back still holds it; the unmark write lets it go, and a crash follows. */
  lemma LostByDeletionBefore(w0: World, e: Export) returns (evs: seq<Event>)
    requires Initial(w0, e) && Plain(w0)
    ensures Abandoned(Run(w0, e, evs), e) && !Run(w0, e, evs).forced
  {
    Unmark(w0.user.value);
    evs := RebindRun(w0, e);
    DeletedBeforeUnmark(Run(w0, e, evs), e);
    evs := Append(w0, e, evs, UserDeletesPvc);
    evs := Append(w0, e, evs, Act(true, 0));
    evs := Append(w0, e, evs, Crash);
  }

  /** The unmark write is made, and the PV is about to be restored. */
  lemma UnmarkedRun(w0: World, e: Export) returns (evs: seq<Event>)
    requires Initial(w0, e) && Plain(w0)
    ensures var w := Run(w0, e, evs);
            && w.pc.RestorePv? && w.pc.snap == Snap(w.pv, w.version) && Inv(w, e) && !w.forced && !w.destroyed
            && w.user.Some? && !w.user.value.deleting && w.user.value.finalizers == []
  {
    Unmark(w0.user.value);
    evs := RebindRun(w0, e);
    var w := Run(w0, e, evs);
    evs := Append(w0, e, evs, Act(true, 0));
    assert Run(w0, e, evs) == StepCleanUser(w, w.pc.why, w.pc.snap, true, 0);
    RunInv(w0, e, evs);
  }

  /** Before the restore, with nobody holding the PVC: deleted, crashed. */
  lemma DeletedBeforeRestore(w: World, e: Export)
    requires Inv(w, e) && w.pc.RestorePv? && w.user.Some? && w.user.value.finalizers == []
    ensures var deleted := Next(w, e, UserDeletesPvc);
            Abandoned(Next(deleted, e, Crash), e) && deleted == w.(user := None) && Inv(deleted, e)
  {
    var deleted := w.(user := None);
    assert Next(w, e, UserDeletesPvc) == StepUserDeletesPvc(w) == deleted;
    NextInv(w, e, UserDeletesPvc);
    AtRestore(deleted, e);
    CrashLosesExactly(deleted, e);
  }

  lemma AtRestore(w: World, e: Export)
    requires Inv(w, e) && w.pc.RestorePv?
    ensures Lent(w, e)
  {}

  /** The user PVC is deleted between the unmark write and the restore, and a crash follows. */
  lemma LostByDeletionAfter(w0: World, e: Export) returns (evs: seq<Event>)
    requires Initial(w0, e) && Plain(w0)
    ensures Abandoned(Run(w0, e, evs), e) && !Run(w0, e, evs).forced
  {
    evs := UnmarkedRun(w0, e);
    DeletedBeforeRestore(Run(w0, e, evs), e);
    Extend(w0, e, evs, UserDeletesPvc);
    evs := evs + [UserDeletesPvc];
    Extend(w0, e, evs, Crash);
    evs := evs + [Crash];
  }

  /** A PVC that is gone and a PV that somebody has touched: the restore patch is refused. */
  lemma RefusedRestore(w: World, e: Export)
    requires Inv(w, e) && w.pc.RestorePv? && w.user.None? && w.pc.snap.version == w.version && !w.destroyed
    ensures var touched := Next(w, e, TouchPv(w.pv));
            var refused := Next(touched, e, Act(true, 0));
            Abandoned(refused, e) && refused.forced == w.forced
  {
    var touched := Next(w, e, TouchPv(w.pv));
    assert touched == w.(version := w.version + 1);
    NextInv(w, e, TouchPv(w.pv));
    RestoreLosesExactly(touched, e, w.pc.why, w.pc.snap, true, 0);
    assert StepAct(touched, e, true, 0) == StepRestorePv(touched, w.pc.why, w.pc.snap, true, 0);
  }

  /** The same deletion with no crash after it: somebody else touches the PV and the restore patch is refused. */
  lemma LostWithoutCrash(w0: World, e: Export) returns (evs: seq<Event>)
    requires Initial(w0, e) && Plain(w0)
    ensures Abandoned(Run(w0, e, evs), e) && !Run(w0, e, evs).forced
    ensures |evs| >= 3 && evs[|evs| - 3].UserDeletesPvc? && evs[|evs| - 2].TouchPv? && evs[|evs| - 1] == Act(true, 0)
  {
    evs := UnmarkedRun(w0, e);
    var w := Run(w0, e, evs);
    DeletedBeforeRestore(w, e);
    RefusedRestore(w.(user := None), e);
    Extend(w0, e, evs, UserDeletesPvc);
    evs := evs + [UserDeletesPvc];
    Extend(w0, e, evs, TouchPv(w.pv));
    evs := evs + [TouchPv(w.pv)];
    Extend(w0, e, evs, Act(true, 0));
    evs := evs + [Act(true, 0)];
  }
}
