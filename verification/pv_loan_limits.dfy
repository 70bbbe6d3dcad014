// Where the PV loan falls short of its documentation: when a PV is lost to the controller, exactly, and what a user
// has to do for it never to be.
module PvLoanLimits {
  import opened Options
  import opened Finalizers
  import opened Lifecycle
  import opened PvLoanObjects
  import opened PvLoanMachine
  import opened PvLoanInvariant
  import opened PvLoanTheorems

  // The user PVC is gone, the PV still carries the marks, and nothing the controller does or remembers restores it.
  predicate Abandoned(w: World, e: Export) {
    && Inv(w, e) && w.user.None? && Lent(w, e) && !OnLoan(w, e) && Final(w) && !Providing(w.pc)
    && !w.pc.RebindPv? && !w.pc.CleanUser? && !w.pc.RestorePv?
  }

  lemma AbandonedByAct(w: World, e: Export, ok: bool, now: nat)
    requires Abandoned(w, e)
    ensures var w' := StepAct(w, e, ok, now);
            w'.pv == w.pv && w'.user.None? && !w'.pc.RebindPv? && !w'.pc.CleanUser? && !w'.pc.RestorePv?
  {
    if Cleaning(w.pc) {
      AbandonedByCleaning(w, e, ok, now);
    } else {
      assert StepAct(w, e, ok, now) == ActWriting(w, ok);
    }
  }

  lemma AbandonedByCleaning(w: World, e: Export, ok: bool, now: nat)
    requires Abandoned(w, e) && Cleaning(w.pc)
    ensures var w' := ActCleaning(w, e, ok, now);
            w'.pv == w.pv && w'.user.None? && !w'.pc.RebindPv? && !w'.pc.CleanUser? && !w'.pc.RestorePv?
  {
    if w.pc.CleanRestored? {
      assert false;
    }
  }

  lemma AbandonedByReconcile(w: World, e: Export, now: nat, inUse: bool)
    requires Abandoned(w, e)
    ensures var pc := StepReconcile(w, e, now, inUse).pc; !pc.RebindPv? && !pc.CleanUser? && !pc.RestorePv?
  {}

  lemma OthersKeepLent(w: World, e: Export, ev: Event)
    requires Inv(w, e) && Lent(w, e) && w.user.None? && !ev.Act? && !ev.Reconcile?
    ensures var w' := Next(w, e, ev);
            && w'.user.None? && (w'.pc == w.pc || w'.pc == Idle) && w'.base == w.base
            && w'.pv.claimRef == w.pv.claimRef && DataExporter in w'.pv.labels
  {}

  lemma OthersKeepFinal(w: World, e: Export, ev: Event)
    requires InvView(w) && Final(w) && !ev.Act? && !ev.Reconcile?
    ensures Final(Next(w, e, ev))
  {}

  // A lent PV is told by its label and its claim.
  lemma AbandonedFrame(w: World, w': World, e: Export)
    requires Abandoned(w, e) && Inv(w', e) && w'.user.None? && Final(w') && !Providing(w'.pc)
    requires !w'.pc.RebindPv? && !w'.pc.CleanUser? && !w'.pc.RestorePv?
    requires w'.base == w.base && w'.pv.claimRef == w.pv.claimRef && DataExporter in w'.pv.labels
    ensures Abandoned(w', e)
  {
    assert !Free(w', e);
  }

  lemma AbandonedStaysAct(w: World, e: Export, ok: bool, now: nat)
    requires Abandoned(w, e) && Inv(StepAct(w, e, ok, now), e)
    ensures Abandoned(StepAct(w, e, ok, now), e)
  {
    AbandonedByAct(w, e, ok, now);
    FinalActStays(w, e, ok, now);
    BaseMovesOnlyUnlent(w, e, Act(ok, now));
    AbandonedFrame(w, StepAct(w, e, ok, now), e);
  }

  lemma AbandonedStaysReconcile(w: World, e: Export, now: nat, inUse: bool)
    requires Abandoned(w, e) && Inv(StepReconcile(w, e, now, inUse), e)
    ensures Abandoned(StepReconcile(w, e, now, inUse), e)
  {
    AbandonedByReconcile(w, e, now, inUse);
    FinalReconcileStays(w, e, now, inUse);
    AbandonedFrame(w, StepReconcile(w, e, now, inUse), e);
  }

  lemma AbandonedStaysOther(w: World, e: Export, ev: Event)
    requires Abandoned(w, e) && Inv(Next(w, e, ev), e) && !ev.Act? && !ev.Reconcile?
    ensures Abandoned(Next(w, e, ev), e)
  {
    OthersKeepLent(w, e, ev);
    OthersKeepFinal(w, e, ev);
    AbandonedFrame(w, Next(w, e, ev), e);
  }

  lemma AbandonedStays(w: World, e: Export, ev: Event)
    requires Abandoned(w, e)
    ensures Abandoned(Next(w, e, ev), e)
  {
    NextInv(w, e, ev);
    if ev.Act? {
      assert Next(w, e, ev) == StepAct(w, e, ev.ok, ev.now);
      AbandonedStaysAct(w, e, ev.ok, ev.now);
    } else if ev.Reconcile? {
      assert Next(w, e, ev) == StepReconcile(w, e, ev.now, ev.inUse);
      AbandonedStaysReconcile(w, e, ev.now, ev.inUse);
    } else {
      AbandonedStaysOther(w, e, ev);
    }
  }

  /** From there no event of any kind ever puts the original policy back. */
  lemma {:induction false} AbandonedForever(w: World, e: Export, evs: seq<Event>)
    requires Abandoned(w, e)
    ensures Abandoned(Run(w, e, evs), e)
    ensures Run(w, e, evs).pv.policy == Retain && OriginalReclaimPolicy in Run(w, e, evs).pv.annotations
  {
    if evs != [] {
      AbandonedForever(w, e, evs[..|evs| - 1]);
      AbandonedStays(Run(w, e, evs[..|evs| - 1]), e, evs[|evs| - 1]);
    }
  }

  // ---- the exact condition ----

  /** The guard a give-back begins with: no user PVC, while the PV still carries the marks. */
  predicate Unclaimed(w: World, e: Export) {
    w.user.None? && Lent(w, e)
  }

  /** A crash loses the PV exactly when the user PVC is gone before the PV is restored, whatever the controller was at. */
  lemma CrashLosesExactly(w: World, e: Export)
    requires Inv(w, e)
    ensures Abandoned(Next(w, e, Crash), e) <==> Unclaimed(w, e)
  {
    var w' := Next(w, e, Crash);
    NextInv(w, e, Crash);
    SamePv(w, w', e);
    if Unclaimed(w, e) {
      assert !OnLoan(w, e);
    }
  }

  /** So does the restore itself when its patch is refused, without any crash; a patch that commits loses nothing. */
  lemma RestoreLosesExactly(w: World, e: Export, why: Why, snap: Snap, ok: bool, now: nat)
    requires Inv(w, e) && w.pc == RestorePv(why, snap)
    ensures Abandoned(StepAct(w, e, ok, now), e) <==>
            w.user.None? && !(ok && !w.destroyed && snap.version == w.version)
  {
    var w' := StepAct(w, e, ok, now);
    assert w' == StepRestorePv(w, why, snap, ok, now);
    NextInv(w, e, Act(ok, now));
    SnapMarks(w, e, snap);
    RestoreOfMarked(snap.pv, e, w.base);
    if ok && !w.destroyed && snap.version == w.version {
      assert !Lent(w', e);
    } else {
      SamePv(w, w', e);
      FinalActStays(w, e, ok, now);
    }
  }

  // ---- what keeps every PV ----

  /** A deletion of the user PVC while neither it nor the PV carries anything of an export. */
  predicate Careful(w: World) {
    DataExporter !in w.pv.labels && (w.user.Some? ==> FINALIZER !in w.user.value.finalizers)
  }

  predicate CarefulRun(w0: World, e: Export, evs: seq<Event>) {
    forall i | 0 <= i < |evs| && evs[i].UserDeletesPvc? :: Careful(Run(w0, e, evs[..i]))
  }

  /** A user PVC that is gone or going has nothing to do with the PV's export. */
  predicate GoneIsFree(w: World) {
    w.user.None? || w.user.value.deleting ==> Careful(w)
  }

  lemma CarefulProviding(w: World, e: Export, ok: bool, now: nat)
    requires Inv(w, e) && GoneIsFree(w) && Providing(w.pc)
    ensures GoneIsFree(ActProviding(w, e, ok, now))
  {}

  lemma CarefulCleaning(w: World, e: Export, ok: bool, now: nat)
    requires Inv(w, e) && GoneIsFree(w) && Cleaning(w.pc)
    ensures GoneIsFree(ActCleaning(w, e, ok, now))
  {
    if HasSnap(w.pc) {
      SnapMarks(w, e, w.pc.snap);
      if Lent(w, e) {
        RestoreOfMarked(w.pc.snap.pv, e, w.base);
      }
    }
  }

  lemma CarefulAct(w: World, e: Export, ok: bool, now: nat)
    requires Inv(w, e) && GoneIsFree(w)
    ensures GoneIsFree(StepAct(w, e, ok, now))
  {
    if Providing(w.pc) {
      CarefulProviding(w, e, ok, now);
    } else if Cleaning(w.pc) {
      CarefulCleaning(w, e, ok, now);
    } else {
      assert ActWriting(w, ok).pv == w.pv && ActWriting(w, ok).user == w.user;
    }
  }

  lemma CarefulOther(w: World, e: Export, ev: Event)
    requires GoneIsFree(w) && !ev.Act? && !ev.Reconcile? && (ev.UserDeletesPvc? ==> Careful(w))
    ensures GoneIsFree(Next(w, e, ev))
  {}

  lemma CarefulNext(w: World, e: Export, ev: Event)
    requires Inv(w, e) && GoneIsFree(w) && (ev.UserDeletesPvc? ==> Careful(w))
    ensures GoneIsFree(Next(w, e, ev))
  {
    if ev.Act? {
      CarefulAct(w, e, ev.ok, ev.now);
    } else if ev.Reconcile? {
      assert Next(w, e, ev) == StepReconcile(w, e, ev.now, ev.inUse);
    } else {
      CarefulOther(w, e, ev);
    }
  }

  lemma {:induction false} CarefulKeeps(w0: World, e: Export, evs: seq<Event>)
    requires Initial(w0, e) && CarefulRun(w0, e, evs)
    ensures GoneIsFree(Run(w0, e, evs))
  {
    if evs != [] {
      var n := |evs| - 1;
      assert CarefulRun(w0, e, evs[..n]) by {
        forall i | 0 <= i < n && evs[..n][i].UserDeletesPvc? ensures Careful(Run(w0, e, evs[..n][..i])) {
          assert evs[..n][..i] == evs[..i] && evs[i].UserDeletesPvc?;
        }
      }
      CarefulKeeps(w0, e, evs[..n]);
      RunInv(w0, e, evs[..n]);
      CarefulNext(Run(w0, e, evs[..n]), e, evs[n]);
    }
  }

  /**
   * If the user deletes the PVC only while neither object carries anything of an export, no run loses the PV, and
   * once our finalizer is off the DataExport the PV is restored, whether or not the user PVC is still there.
   */
  lemma CarefulUserLosesNothing(w0: World, e: Export, evs: seq<Event>)
    requires Initial(w0, e) && CarefulRun(w0, e, evs)
    ensures var w := Run(w0, e, evs);
            && !Unclaimed(w, e)
            && (!w.forced && (w.de.None? || FINALIZER !in w.de.value.finalizers) ==> Free(w, e))
  {
    CarefulKeeps(w0, e, evs);
    RunInv(w0, e, evs);
    var w := Run(w0, e, evs);
    if !w.forced && (w.de.None? || FINALIZER !in w.de.value.finalizers) {
      assert !Holding(w);
      assert Settled(w, e);
    }
  }

  // ---- and only that ----

  lemma {:induction false} RunInvFrom(w: World, e: Export, evs: seq<Event>)
    requires Inv(w, e)
    ensures Inv(Run(w, e, evs), e)
  {
    if evs != [] {
      RunInvFrom(w, e, evs[..|evs| - 1]);
      NextInv(Run(w, e, evs[..|evs| - 1]), e, evs[|evs| - 1]);
    }
  }

  lemma Extend(w: World, e: Export, evs: seq<Event>, ev: Event)
    ensures Run(w, e, evs + [ev]) == Next(Run(w, e, evs), e, ev)
  {
    assert (evs + [ev])[..|evs + [ev]| - 1] == evs;
  }

  // The PVC is on its way out and nobody but us holds it; the DataExport has been removed and the controller knows.
  predicate Doomed(w: World, e: Export) {
    && Inv(w, e) && w.pc == Idle && w.view.None? && w.forced && Lent(w, e)
    && w.user.Some? && w.user.value.deleting && w.user.value.finalizers == [FINALIZER]
  }

  lemma DoomedRun(w: World, e: Export) returns (evs: seq<Event>)
    requires Inv(w, e) && Lent(w, e) && w.user.Some?
    ensures |evs| > 0 && evs[0] == UserDeletesPvc
    ensures Doomed(Run(w, e, evs), e) || Abandoned(Run(w, e, evs), e)
  {
    evs := [UserDeletesPvc];
    Extend(w, e, [], UserDeletesPvc);
    assert [] + [UserDeletesPvc] == evs;
    var w1 := Run(w, e, evs);
    assert w1 == StepUserDeletesPvc(w);
    Extend(w, e, evs, Crash);
    evs := evs + [Crash];
    Extend(w, e, evs, ForceRemoveExport);
    evs := evs + [ForceRemoveExport];
    Extend(w, e, evs, Refresh);
    evs := evs + [Refresh];
    var w2 := Run(w, e, evs);
    assert w2 == w1.(pc := Idle, de := None, forced := true, view := None);
    Extend(w, e, evs, ReleaseUserPvc);
    evs := evs + [ReleaseUserPvc];
    var w3 := Run(w, e, evs);
    RunInvFrom(w, e, evs);
    SamePv(w, w3, e);
    if w3.user.None? {
      CrashLosesExactly(w3, e);
      assert Next(w3, e, Crash) == w3;
    }
  }

  lemma DoomedToUnmark(w: World, e: Export) returns (evs: seq<Event>)
    requires Doomed(w, e)
    ensures var r := Run(w, e, evs);
            Inv(r, e) && r.pc.CleanUser? && r.user == w.user && Lent(r, e)
  {
    ParseOfMarked(w.pv, e, w.base);
    var snap := Snap(w.pv, w.version);
    evs := [Reconcile(0, false)];
    Extend(w, e, [], Reconcile(0, false));
    assert [] + [Reconcile(0, false)] == evs;
    var w1 := Run(w, e, evs);
    assert w1 == StartOrphan(w, e) == w.(pc := DropDeploy(ForOrphan(snap)));
    Extend(w, e, evs, Act(true, 0));
    evs := evs + [Act(true, 0)];
    var w2 := Run(w, e, evs);
    assert w2 == StepDropDeploy(w1, e, ForOrphan(snap), true, 0);
    Extend(w, e, evs, Act(true, 0));
    evs := evs + [Act(true, 0)];
    var w3 := Run(w, e, evs);
    assert w3 == StepDropExport(w2, e, ForOrphan(snap), true, 0);
    RunInvFrom(w, e, evs);
    SamePv(w, w3, e);
    if w3.pc.RebindPv? {
      Extend(w, e, evs, Act(true, 0));
      evs := evs + [Act(true, 0)];
      assert Run(w, e, evs) == StepRebindPv(w3, e, ForOrphan(snap), snap, true, 0);
      RunInvFrom(w, e, evs);
    }
  }

  lemma UnmarkLoses(w: World, e: Export)
    requires Inv(w, e) && w.pc.CleanUser? && w.user.Some?
    requires w.user.value.deleting && w.user.value.finalizers == [FINALIZER]
    ensures Abandoned(Next(Next(w, e, Act(true, 0)), e, Crash), e)
  {
    var gone := Next(w, e, Act(true, 0));
    assert gone == StepCleanUser(w, w.pc.why, w.pc.snap, true, 0);
    assert Without([FINALIZER], FINALIZER) == [];
    NextInv(w, e, Act(true, 0));
    assert gone.user.None? && gone.pc.RestorePv?;
    CrashLosesExactly(gone, e);
  }

  /** Whenever the PV carries the marks of an export, deleting the user PVC can still lose it. */
  lemma CarelessCanLose(w: World, e: Export) returns (evs: seq<Event>)
    requires Inv(w, e) && Lent(w, e) && w.user.Some?
    ensures |evs| > 0 && evs[0] == UserDeletesPvc && Abandoned(Run(w, e, evs), e)
  {
    evs := DoomedRun(w, e);
    var doomed := Run(w, e, evs);
    if !Abandoned(doomed, e) {
      var more := DoomedToUnmark(doomed, e);
      UnmarkLoses(Run(doomed, e, more), e);
      Extend(doomed, e, more, Act(true, 0));
      Extend(doomed, e, more + [Act(true, 0)], Crash);
      more := more + [Act(true, 0)] + [Crash];
      RunConcat(w, e, evs, more);
      evs := evs + more;
    }
  }

  lemma {:induction false} RunConcat(w: World, e: Export, a: seq<Event>, b: seq<Event>)
    ensures Run(w, e, a + b) == Run(Run(w, e, a), e, b)
  {
    if b == [] {
      assert a + b == a;
    } else {
      RunConcat(w, e, a, b[..|b| - 1]);
      assert (a + b)[..|a + b| - 1] == a + b[..|b| - 1];
    }
  }
}
