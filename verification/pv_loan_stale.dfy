// A controller that restarts on an older copy of its DataExport, in the middle of giving the PV back.
module PvLoanStale {
  import opened Options
  import opened Finalizers
  import opened Lifecycle
  import opened PvLoanObjects
  import opened PvLoanMachine
  import opened PvLoanInvariant
  import opened PvLoanTheorems
  import opened PvLoanLimits
  import opened PvLoanRuns

  // The PV points back at its user PVC and still carries the marks; the controller is between two reconciles.
  predicate HalfReturned(w: World, e: Export) {
    Inv(w, e) && w.pc == Idle && Lent(w, e) && !OnLoan(w, e)
  }

  predicate CanBeMarked(w: World) {
    w.user.Some? && !(w.user.value.deleting && FINALIZER !in w.user.value.finalizers)
  }

  /** The guards of Reconcile and of taking the PV, on the copy that was read and the objects as they are. */
  predicate TakesAgain(w: World, e: Export, stale: DataExport, inUse: bool) {
    && !stale.deleting && !IsExpired(stale) && !stale.phase.IsTerminal()
    && stale.ready.Some? && stale.ready.value.status != True
    && CanBeMarked(w)
    && if w.exportPvc.Some? then !w.exportPvc.value.lost else WorkingState(w.user.value, w.pv, e) && !inUse
  }

  function Restarted(w: World, e: Export, stale: DataExport, inUse: bool, now: nat, n: nat): World {
    Acts(StepReconcile(w.(view := Some(stale)), e, now, inUse), e, n, now)
  }

  lemma ActsThree(w: World, e: Export, now: nat)
    ensures Acts(w, e, 3, now) == StepAct(StepAct(StepAct(w, e, true, now), e, true, now), e, true, now)
  {
    var w1 := StepAct(w, e, true, now);
    var w2 := StepAct(w1, e, true, now);
    assert Acts(w, e, 3, now) == Acts(w1, e, 2, now) == Acts(w2, e, 1, now);
    assert Acts(w2, e, 1, now) == Acts(StepAct(w2, e, true, now), e, 0, now);
  }

  // ---- from where the PV is not taken ----

  // A give-back, a status write, the tail of a loan, or the start of one whose user PVC cannot be marked.
  predicate TakesNothing(w: World) {
    Providing(w.pc) ==> w.pc.Deploy? || w.pc.Await? || ((w.pc.CreateExport? || w.pc.MarkUser?) && !CanBeMarked(w))
  }

  // A write reads what is stored: nobody else writes the PV meanwhile.
  predicate ReadsCurrent(w: World) {
    HasSnap(w.pc) || w.pc.FlagPv? ==> w.pc.snap == Snap(w.pv, w.version)
  }

  // The saved policy, while it is there, is the one in force before the export, or Retain after a second taking.
  predicate Saved(w: World, policy: ReclaimPolicy) {
    OriginalReclaimPolicy in w.pv.annotations ==> w.pv.annotations[OriginalReclaimPolicy] == PolicyName(policy)
  }

  lemma ProvidingTakesNothing(w: World, e: Export, now: nat)
    requires Providing(w.pc) && TakesNothing(w) && ReadsCurrent(w)
    ensures var w' := ActProviding(w, e, true, now);
            TakesNothing(w') && ReadsCurrent(w') && w'.takes == w.takes && w'.pv == w.pv && w'.base == w.base
  {}

  lemma CleaningTakesNothing(w: World, e: Export, now: nat, policy: ReclaimPolicy)
    requires Cleaning(w.pc) && ReadsCurrent(w) && w.pc.why.ForOwner? && Saved(w, policy)
    ensures var w' := ActCleaning(w, e, true, now);
            && !Providing(w'.pc) && ReadsCurrent(w') && w'.takes == w.takes && w'.base == w.base && Saved(w', policy)
            && (Cleaning(w'.pc) ==> w'.pc.why.ForOwner?)
  {}

  lemma StepTakesNothing(w: World, e: Export, now: nat, policy: ReclaimPolicy)
    requires TakesNothing(w) && ReadsCurrent(w) && Saved(w, policy)
    requires Cleaning(w.pc) ==> w.pc.why.ForOwner?
    ensures var w' := StepAct(w, e, true, now);
            && TakesNothing(w') && ReadsCurrent(w') && w'.takes == w.takes && w'.base == w.base && Saved(w', policy)
            && (Cleaning(w'.pc) ==> w'.pc.why.ForOwner?)
            && (!Cleaning(w.pc) ==> w'.pv == w.pv && !Cleaning(w'.pc))
  {
    if Providing(w.pc) {
      ProvidingTakesNothing(w, e, now);
      NeverCleans(w, e, now);
    } else if Cleaning(w.pc) {
      CleaningTakesNothing(w, e, now, policy);
    } else {
      assert ActWriting(w, true).pv == w.pv;
    }
  }

  lemma NeverCleans(w: World, e: Export, now: nat)
    requires Providing(w.pc)
    ensures !Cleaning(ActProviding(w, e, true, now).pc)
  {}

  lemma {:induction false} ActsTakeNothing(w: World, e: Export, n: nat, now: nat, policy: ReclaimPolicy)
    requires TakesNothing(w) && ReadsCurrent(w) && Saved(w, policy)
    requires Cleaning(w.pc) ==> w.pc.why.ForOwner?
    ensures var w' := Acts(w, e, n, now);
            w'.takes == w.takes && w'.base == w.base && Saved(w', policy) && (!Cleaning(w.pc) ==> w'.pv == w.pv)
    decreases n
  {
    if n > 0 {
      StepTakesNothing(w, e, now, policy);
      ActsTakeNothing(StepAct(w, e, true, now), e, n - 1, now, policy);
    }
  }

  // ---- the two sides ----

  lemma StartTakes(w: World, e: Export, stale: DataExport, inUse: bool, now: nat)
    requires HalfReturned(w, e) && TakesAgain(w, e, stale, inUse)
    ensures var w1 := StepReconcile(w.(view := Some(stale)), e, now, inUse);
            && w1 == w.(view := Some(stale), pc := w1.pc)
            && (w1.pc == CreateExport(Mem(stale, stale), Snap(w.pv, w.version)) ||
                (w1.pc.MarkUser? && w1.pc.snap == Snap(w.pv, w.version)))
            && (w1.pc.CreateExport? <==> w.exportPvc.None?)
  {
    assert NotOwnedByAnother(w.pv, e.namespace, e.name);
  }

  /** From the mark on, two writes take the PV again and save the policy it has, which is Retain. */
  lemma MarkTakes(w: World, e: Export, now: nat)
    requires w.pc.MarkUser? && w.pc.snap == Snap(w.pv, w.version) && CanBeMarked(w) && !w.destroyed
    requires w.pv.policy == Retain && !OnLoan(w, e)
    ensures var w' := StepAct(StepAct(w, e, true, now), e, true, now);
            && w'.pc.Deploy? && w'.takes == w.takes + 1 && w'.base == w.base && w'.version == w.version + 1
            && OriginalReclaimPolicy in w'.pv.annotations
            && w'.pv.annotations[OriginalReclaimPolicy] == PolicyName(Retain)
  {
    var w1 := StepAct(w, e, true, now);
    assert w1 == ActProviding(w, e, true, now);
    assert !ReadyForExport(w.pv, e);
    assert w1.pc.LendPv? && w1.pv == w.pv && w1.version == w.version;
    assert StepAct(w1, e, true, now) == ActProviding(w1, e, true, now);
  }

  lemma Takes(w: World, e: Export, stale: DataExport, inUse: bool, now: nat)
    requires HalfReturned(w, e) && TakesAgain(w, e, stale, inUse)
    ensures var w' := Restarted(w, e, stale, inUse, now, 3);
            && w'.takes == w.takes + 1 && w'.base == w.base && TakesNothing(w') && !Cleaning(w'.pc) && ReadsCurrent(w')
            && OriginalReclaimPolicy in w'.pv.annotations
            && w'.pv.annotations[OriginalReclaimPolicy] == PolicyName(Retain)
  {
    var w1 := StepReconcile(w.(view := Some(stale)), e, now, inUse);
    StartTakes(w, e, stale, inUse, now);
    ActsThree(w1, e, now);
    if w1.pc.CreateExport? {
      var w2 := StepAct(w1, e, true, now);
      assert w2 == ActProviding(w1, e, true, now);
      assert w2.pc.MarkUser? && w2.pv == w.pv && w2.user == w.user && w2.version == w.version;
      MarkTakes(w2, e, now);
    } else {
      MarkTakes(w1, e, now);
      var w3 := StepAct(StepAct(w1, e, true, now), e, true, now);
      StepTakesNothing(w3, e, now, Retain);
    }
  }

  lemma StartTakesNothing(w: World, e: Export, stale: DataExport, inUse: bool, now: nat)
    requires HalfReturned(w, e) && !TakesAgain(w, e, stale, inUse)
    ensures var w1 := StepReconcile(w.(view := Some(stale)), e, now, inUse);
            && w1 == w.(view := Some(stale), pc := w1.pc) && TakesNothing(w1) && ReadsCurrent(w1)
            && (Cleaning(w1.pc) ==> w1.pc.why.ForOwner?)
  {}

  /** The saved policy is not the original one. */
  predicate PolicyLost(w: World) {
    OriginalReclaimPolicy in w.pv.annotations && w.pv.annotations[OriginalReclaimPolicy] != PolicyName(w.base)
  }

  /** In a half-returned state a reconcile on any copy takes the PV again exactly when its guards let it. */
  lemma HalfReturnedLosesPolicy(w: World, e: Export, stale: DataExport, inUse: bool, now: nat, n: nat)
    requires HalfReturned(w, e) && n >= 3
    ensures var w' := Restarted(w, e, stale, inUse, now, n);
            && (w'.takes > w.takes <==> TakesAgain(w, e, stale, inUse))
            && (PolicyLost(w') <==> TakesAgain(w, e, stale, inUse) && w.base != Retain)
  {
    var w1 := StepReconcile(w.(view := Some(stale)), e, now, inUse);
    ParsePolicyName(w.base);
    ParsePolicyName(Retain);
    if TakesAgain(w, e, stale, inUse) {
      Takes(w, e, stale, inUse, now);
      ActsAdd(w1, e, 3, n - 3, now);
      ActsTakeNothing(Restarted(w, e, stale, inUse, now, 3), e, n - 3, now, Retain);
    } else {
      StartTakesNothing(w, e, stale, inUse, now);
      ActsTakeNothing(w1, e, n, now, w.base);
    }
  }

  // ---- every other state at rest ----

  // A taking under way saves the policy in force before the export, or finds the PV ready and saves nothing.
  predicate SavesBase(w: World, e: Export) {
    && (w.pc.LendPv? ==> w.pc.snap.pv.policy == w.base)
    && (w.pc.CreateExport? || w.pc.MarkUser? ==> w.pc.snap.pv.policy == w.base || ReadyForExport(w.pc.snap.pv, e))
    && (Cleaning(w.pc) ==> w.pc.why.ForOwner?)
  }

  lemma ProvidingSavesBase(w: World, e: Export, now: nat)
    requires Providing(w.pc) && SavesBase(w, e) && ReadsCurrent(w) && Saved(w, w.base)
    ensures var w' := ActProviding(w, e, true, now);
            SavesBase(w', e) && ReadsCurrent(w') && Saved(w', w.base) && w'.base == w.base
  {}

  lemma StepSavesBase(w: World, e: Export, now: nat)
    requires SavesBase(w, e) && ReadsCurrent(w) && Saved(w, w.base)
    ensures var w' := StepAct(w, e, true, now);
            SavesBase(w', e) && ReadsCurrent(w') && Saved(w', w.base) && w'.base == w.base
  {
    if Providing(w.pc) {
      ProvidingSavesBase(w, e, now);
    } else if Cleaning(w.pc) {
      CleaningTakesNothing(w, e, now, w.base);
    } else {
      assert ActWriting(w, true).pv == w.pv;
    }
  }

  lemma {:induction false} ActsSaveBase(w: World, e: Export, n: nat, now: nat)
    requires SavesBase(w, e) && ReadsCurrent(w) && Saved(w, w.base)
    ensures Saved(Acts(w, e, n, now), w.base) && Acts(w, e, n, now).base == w.base
    decreases n
  {
    if n > 0 {
      StepSavesBase(w, e, now);
      ActsSaveBase(StepAct(w, e, true, now), e, n - 1, now);
    }
  }

  // The PV has the policy in force before the export, or is ready for the export; no wrong policy is saved.
  predicate Sound(w: World, e: Export) {
    Saved(w, w.base) && (w.pv.policy == w.base || ReadyForExport(w.pv, e))
  }

  lemma RestIsSound(w: World, e: Export)
    requires Inv(w, e) && w.pc == Idle && !HalfReturned(w, e)
    ensures Sound(w, e)
  {
    if Lent(w, e) {
      ParseOfMarked(w.pv, e, w.base);
    }
  }

  lemma StartProvidingSavesBase(w: World, e: Export, mem: Mem, inUse: bool, now: nat)
    requires w.pc == Idle && Sound(w, e)
    ensures var w1 := StartProviding(w, e, mem, inUse, now);
            w1 == w.(pc := w1.pc) && SavesBase(w1, e) && ReadsCurrent(w1)
  {}

  lemma StartSavesBase(w: World, e: Export, inUse: bool, now: nat)
    requires w.pc == Idle && w.view.Some? && Sound(w, e)
    ensures var w1 := StepReconcile(w, e, now, inUse);
            w1 == w.(pc := w1.pc) && SavesBase(w1, e) && ReadsCurrent(w1)
  {
    StartProvidingSavesBase(w, e, Mem(w.view.value, w.view.value), inUse, now);
  }

  /**
   * From every state of the loan at rest, whatever copy of the DataExport the reconcile reads: the saved policy is
   * wrong after three writes or any more exactly when the PV was half returned, the guards on that copy let the
   * reconcile take the PV again, and the policy was not Retain.
   */
  lemma StaleRestartLosesPolicy(w: World, e: Export, stale: DataExport, inUse: bool, now: nat, n: nat)
    requires Inv(w, e) && w.pc == Idle && n >= 3
    ensures var w' := Restarted(w, e, stale, inUse, now, n);
            && (PolicyLost(w') <==> HalfReturned(w, e) && TakesAgain(w, e, stale, inUse) && w.base != Retain)
            && (HalfReturned(w, e) ==> (w'.takes > w.takes <==> TakesAgain(w, e, stale, inUse)))
  {
    if HalfReturned(w, e) {
      HalfReturnedLosesPolicy(w, e, stale, inUse, now, n);
    } else {
      RestIsSound(w, e);
      StartSavesBase(w.(view := Some(stale)), e, inUse, now);
      ActsSaveBase(StepReconcile(w.(view := Some(stale)), e, now, inUse), e, n, now);
    }
  }

  // ---- a run that gets there, and the older version in it ----

  lemma ForeignPhase(w0: World, e: Export)
    requires Initial(w0, e) && Plain(w0)
    ensures var stale := Accepted(w0.de.value);
            && !stale.deleting && !IsExpired(stale) && !stale.phase.IsTerminal()
            && stale.ready.Some? && stale.ready.value.status != True
  {}

  /**
   * A give-back crashes before its last write, and the restarted controller reads the version its own first reconcile
   * had stored: for every original policy but Retain, that policy is lost.
   */
  lemma StaleRestartIsReachable(w0: World, e: Export) returns (evs: seq<Event>)
    requires Initial(w0, e) && Plain(w0) && w0.base != Retain
    ensures WasAccepted(w0, e, evs)
    ensures var w, stale := Run(w0, e, evs), Run(w0, e, evs[..3]).de.value;
            HalfReturned(w, e) && TakesAgain(w, e, stale, false) && PolicyLost(Restarted(w, e, stale, false, 0, 3))
  {
    evs := RebindRun(w0, e);
    var w13 := Run(w0, e, evs);
    evs := Append(w0, e, evs, Crash);
    var w := Run(w0, e, evs);
    assert w == w13.(pc := Idle);
    RunInv(w0, e, evs);
    SamePv(w13, w, e);
    ForeignPhase(w0, e);
    assert w.user.value.bound && !w.user.value.deleting;
    assert WorkingState(w.user.value, w.pv, e);
    StaleRestartLosesPolicy(w, e, Accepted(w0.de.value), false, 0, 3);
  }
}
