// What an undisturbed reconcile of the DataExport ends with: the PV given back, taken or refused, and the verdict stored.
module PvLoanAnswers {
  import opened Options
  import opened Finalizers
  import opened Lifecycle
  import opened PvLoanObjects
  import opened PvLoanMachine
  import opened PvLoanInvariant
  import opened PvLoanTheorems

  // ---- a finished reconcile is stored ----

  // Nothing has touched the stored DataExport since the reconcile read it.
  predicate Fresh(w: World, d: DataExport) {
    w.de == Some(d) && w.view == Some(d)
  }

  function WithStatus(d: DataExport, s: DataExport): DataExport {
    d.(ready := s.ready, phase := s.phase, completion := s.completion)
  }

  /** A reconcile that wants no other finalizers stores its status in one write, or has none to write. */
  lemma FinishStores(w: World, e: Export, mem: Mem, failure: Failure, now: nat)
    requires Fresh(w, mem.orig) && mem.cur.finalizers == mem.orig.finalizers
    ensures var d := WithStatus(mem.orig, FinalizeStatus(MutateReadyByErr(mem.cur, failure), now));
            StepAct(Finish(w, mem, failure, now), e, true, now) == w.(de := Some(d), view := Some(d), pc := Idle)
            || (d == mem.orig && StepAct(Finish(w, mem, failure, now), e, true, now) == w.(pc := Idle))
  {
    FinalizeKeepsFinalizers(mem.cur, failure, now);
  }

  lemma FinalizeKeepsFinalizers(d: DataExport, failure: Failure, now: nat)
    ensures FinalizeStatus(MutateReadyByErr(d, failure), now).finalizers == d.finalizers
  {}

  // ---- giving back, to the end ----

  /** The PV is as it was before the export, the user PVC is unmarked, and nothing of the export is left. */
  predicate Returned(w: World, e: Export) {
    && w.pv.policy == w.base && w.pv.claimRef == Some(e.UserRef()) && NoMarks(w.pv)
    && w.user.Some? && Unmarked(w.user.value)
    && w.exportPvc.None? && w.deploy.None?
  }

  lemma NeverCleansAgain(w: World, e: Export, now: nat)
    requires !Providing(w.pc) && !Cleaning(w.pc)
    ensures var w' := StepAct(w, e, true, now); !Providing(w'.pc) && !Cleaning(w'.pc)
  {}

  lemma {:induction false} NoTidyAgain(w: World, e: Export, n: nat, now: nat)
    requires !Providing(w.pc) && !Cleaning(w.pc)
    ensures !Acts(w, e, n, now).pc.Tidy?
    decreases n
  {
    if n > 0 {
      NeverCleansAgain(w, e, now);
      NoTidyAgain(StepAct(w, e, true, now), e, n - 1, now);
    }
  }

  lemma CleaningKeepsOwn(w: World, e: Export, now: nat)
    requires Cleaning(w.pc)
    ensures var w' := StepAct(w, e, true, now); w'.de == w.de && w'.view == w.view && !Providing(w'.pc)
  {}

  /** The give-back itself leaves the DataExport alone. */
  lemma {:induction false} OwnUntilTidy(w: World, e: Export, n: nat, now: nat)
    requires !Providing(w.pc) && Acts(w, e, n, now).pc.Tidy?
    ensures var w' := Acts(w, e, n, now); w'.de == w.de && w'.view == w.view
    decreases n
  {
    if n > 0 {
      if Cleaning(w.pc) {
        CleaningKeepsOwn(w, e, now);
        OwnUntilTidy(StepAct(w, e, true, now), e, n - 1, now);
      } else {
        NoTidyAgain(w, e, n, now);
      }
    }
  }

  // The DataExport once the give-back is stored: our finalizer is off, and the object is gone if it was the last one.
  predicate Closed(w: World, mem: Mem) {
    if mem.orig.deleting && Without(mem.orig.finalizers, FINALIZER) == [] then w.de.None?
    else
      && w.de.Some? && FINALIZER !in w.de.value.finalizers
      && Without(w.de.value.finalizers, FINALIZER) == Without(mem.orig.finalizers, FINALIZER)
      && w.de.value.ready == mem.cur.ready
      && w.de.value.phase == ComputePhase(mem.cur)
      && (w.de.value.phase.IsTerminal() ==> w.de.value.completion.Some?)
  }

  lemma MetaCloses(w: World, e: Export, mem: Mem, now: nat)
    requires Fresh(w, mem.orig) && FINALIZER in mem.orig.finalizers && w.pc == WriteMeta(mem, false)
    ensures var w1 := StepAct(w, e, true, now);
            var d := mem.orig.(finalizers := Without(mem.orig.finalizers, FINALIZER));
            if d.deleting && d.finalizers == [] then w1 == w.(de := None, view := None, pc := Idle)
            else w1 == w.(de := Some(d), view := Some(d), pc := if SameStatus(mem.orig, mem.cur) then Idle else WriteStatus(mem))
  {}

  function Ending(mem: Mem, now: nat): Mem {
    Mem(mem.orig, FinalizeStatus(mem.cur.(finalizers := []), now))
  }

  lemma TidyWrites(w: World, e: Export, mem: Mem, now: nat)
    requires w.pc == Tidy(ForOwner(mem)) && FINALIZER in mem.orig.finalizers
    ensures StepAct(w, e, true, now) == w.(pc := WriteMeta(Ending(mem, now), false))
  {}

  lemma StatusCloses(w: World, e: Export, d: DataExport, mem: Mem, now: nat)
    requires Fresh(w, d)
    ensures w.pc == WriteStatus(mem) ==>
              StepAct(w, e, true, now) == w.(de := Some(WithStatus(d, mem.cur)), view := Some(WithStatus(d, mem.cur)), pc := Idle)
    ensures w.pc == Idle ==> StepAct(w, e, true, now) == w
  {}

  lemma EndingStatus(mem: Mem, now: nat)
    ensures var cur := Ending(mem, now).cur;
            && cur.ready == mem.cur.ready && cur.phase == ComputePhase(mem.cur)
            && (cur.phase.IsTerminal() ==> cur.completion.Some?)
  {}

  /** The three last writes: everything tidied, the finalizer off, the status stored. */
  lemma TidyCloses(w: World, e: Export, mem: Mem, now: nat)
    requires w.pc == Tidy(ForOwner(mem)) && Fresh(w, mem.orig) && FINALIZER in mem.orig.finalizers
    ensures var w' := Acts(w, e, 3, now);
            w'.pc == Idle && Closed(w', mem) && ObjectsOf(w') == ObjectsOf(w) && w'.base == w.base
  {
    var mem' := Ending(mem, now);
    var d := mem.orig.(finalizers := Without(mem.orig.finalizers, FINALIZER));
    TidyWrites(w, e, mem, now);
    EndingStatus(mem, now);
    var w1 := StepAct(w, e, true, now);
    MetaCloses(w1, e, mem', now);
    var w2 := StepAct(w1, e, true, now);
    assert Acts(w, e, 3, now) == StepAct(w2, e, true, now) by {
      assert Acts(w, e, 3, now) == Acts(w1, e, 2, now) == Acts(w2, e, 1, now);
      assert Acts(w2, e, 1, now) == Acts(StepAct(w2, e, true, now), e, 0, now);
    }
    if w2.de.Some? {
      StatusCloses(w2, e, d, mem', now);
      assert Without(d.finalizers, FINALIZER) == d.finalizers;
    }
  }

  lemma TidyMeansReturned(w: World, e: Export)
    requires Inv(w, e) && w.pc.Tidy? && w.user.Some? && w.exportPvc.None? && w.deploy.None?
    ensures Returned(w, e)
  {
    assert Free(w, e) && Unmarked(w.user.value);
  }

  lemma ReachesTidy(w: World, e: Export, mem: Mem, now: nat) returns (n: nat)
    requires Inv(w, e) && w.pc == DropDeploy(ForOwner(mem)) && UserStays(w)
    ensures n <= 5
    ensures var w' := Acts(w, e, n, now);
            w'.pc == Tidy(ForOwner(mem)) && Returned(w', e) && w'.de == w.de && w'.view == w.view
  {
    n := GiveBackReachesTidy(w, e, ForOwner(mem), now);
    ActsConverge(w, e, n, now);
    OwnUntilTidy(w, e, n, now);
    TidyMeansReturned(Acts(w, e, n, now), e);
  }

  /** From its first write to its last, at most eight in all. */
  lemma GiveBackCompletes(w: World, e: Export, mem: Mem, now: nat) returns (n: nat)
    requires Inv(w, e) && w.pc == DropDeploy(ForOwner(mem)) && UserStays(w)
    requires Fresh(w, mem.orig) && FINALIZER in mem.orig.finalizers
    ensures n <= 8
    ensures var w' := Acts(w, e, n, now); w'.pc == Idle && Returned(w', e) && Closed(w', mem)
  {
    var m := ReachesTidy(w, e, mem, now);
    ThenCloses(w, e, m, mem, now);
    n := m + 3;
  }

  lemma ThenCloses(w: World, e: Export, m: nat, mem: Mem, now: nat)
    requires Acts(w, e, m, now).pc == Tidy(ForOwner(mem)) && Fresh(Acts(w, e, m, now), mem.orig)
    requires FINALIZER in mem.orig.finalizers && Returned(Acts(w, e, m, now), e)
    ensures var w' := Acts(w, e, m + 3, now); w'.pc == Idle && Returned(w', e) && Closed(w', mem)
  {
    ActsAdd(w, e, m, 3, now);
    TidyCloses(Acts(w, e, m, now), e, mem, now);
  }

  /**
   * Idle expiry: the reconcile that sees it gives the PV back, takes our finalizer off and ends Expired, with the reason
   * and a stamp.
   */
  lemma ExpiryGivesBack(w: World, e: Export, d: DataExport, now: nat, inUse: bool) returns (n: nat)
    requires Inv(w, e) && w.pc == Idle && UserStays(w) && Fresh(w, d) && FINALIZER in d.finalizers
    requires !d.deleting && d.serverState == IdleExpired
    ensures n <= 8
    ensures var w' := Acts(StepReconcile(w, e, now, inUse), e, n, now);
            && w'.pc == Idle && Returned(w', e)
            && w'.de.Some? && FINALIZER !in w'.de.value.finalizers
            && w'.de.value.ready.Some? && w'.de.value.ready.value.reason == RExpired
            && (w'.de.value.phase == if d.phase.IsTerminal() then d.phase else Expired)
            && w'.de.value.completion.Some?
  {
    var w1 := StepReconcile(w, e, now, inUse);
    var cur := if d.ready.Some? && d.ready.value.reason == RExpired then d else NotReady(d, RExpired);
    assert w1 == w.(pc := DropDeploy(ForOwner(Mem(d, cur))));
    ReconcileInv(w, e, now, inUse);
    n := GiveBackCompletes(w1, e, Mem(d, cur), now);
  }

  /** Deletion: the same, and the object goes with its last finalizer. */
  lemma DeletionGivesBack(w: World, e: Export, d: DataExport, now: nat, inUse: bool) returns (n: nat)
    requires Inv(w, e) && w.pc == Idle && UserStays(w) && Fresh(w, d) && FINALIZER in d.finalizers
    requires d.deleting
    ensures n <= 8
    ensures var w' := Acts(StepReconcile(w, e, now, inUse), e, n, now);
            && w'.pc == Idle && Returned(w', e)
            && (w'.de.None? <==> forall f | f in d.finalizers :: f == FINALIZER)
            && (w'.de.Some? ==> FINALIZER !in w'.de.value.finalizers && w'.de.value.phase == Terminating)
  {
    var w1 := StepReconcile(w, e, now, inUse);
    assert w1 == w.(pc := DropDeploy(ForOwner(Mem(d, d))));
    ReconcileInv(w, e, now, inUse);
    n := GiveBackCompletes(w1, e, Mem(d, d), now);
    assert Without(d.finalizers, FINALIZER) == [] <==> forall f | f in d.finalizers :: f == FINALIZER by {
      if Without(d.finalizers, FINALIZER) != [] {
        assert Without(d.finalizers, FINALIZER)[0] in Without(d.finalizers, FINALIZER);
      } else {
        assert forall f | f in d.finalizers && f != FINALIZER :: f in Without(d.finalizers, FINALIZER);
      }
    }
  }

  lemma ClosesWithoutUser(w: World, e: Export, mem: Mem, now: nat)
    requires Inv(w, e) && w.pc == DropDeploy(ForOwner(mem)) && w.user.None?
    requires Fresh(w, mem.orig) && FINALIZER in mem.orig.finalizers
    ensures var w' := Acts(w, e, 5, now);
            && w'.pc == Idle && Closed(w', mem)
            && ObjectsOf(w') == Objects(w.pv, None, None, None)
  {
    DropsWithoutUser(w, e, mem, now);
    ActsAdd(w, e, 2, 3, now);
    TidyCloses(w.(deploy := None, exportPvc := None, pc := Tidy(ForOwner(mem))), e, mem, now);
  }

  lemma StartsGivingBack(w: World, e: Export, d: DataExport, now: nat, inUse: bool) returns (mem: Mem)
    requires w.pc == Idle && Fresh(w, d) && FINALIZER in d.finalizers && (d.deleting || d.serverState == IdleExpired)
    ensures mem.orig == d && mem.cur.deleting == d.deleting
    ensures StepReconcile(w, e, now, inUse) == w.(pc := DropDeploy(ForOwner(mem)))
  {
    mem := Mem(d, if d.deleting || (d.ready.Some? && d.ready.value.reason == RExpired) then d else NotReady(d, RExpired));
  }

  /** With the user PVC gone there is nobody to give the PV back to: the rest goes all the same, and the PV stays as it is. */
  lemma EndsWithoutUser(w: World, e: Export, d: DataExport, now: nat, inUse: bool)
    requires Inv(w, e) && w.pc == Idle && w.user.None? && Fresh(w, d) && FINALIZER in d.finalizers
    requires d.deleting || d.serverState == IdleExpired
    ensures var w' := Acts(StepReconcile(w, e, now, inUse), e, 5, now);
            && w'.pc == Idle && ObjectsOf(w') == Objects(w.pv, None, None, None)
            && (w'.de.Some? ==> FINALIZER !in w'.de.value.finalizers)
            && (w'.de.None? ==> d.deleting)
  {
    var mem := StartsGivingBack(w, e, d, now, inUse);
    ReconcileInv(w, e, now, inUse);
    ClosesWithoutUser(StepReconcile(w, e, now, inUse), e, mem, now);
  }

  lemma DropsWithoutUser(w: World, e: Export, mem: Mem, now: nat)
    requires Inv(w, e) && w.pc == DropDeploy(ForOwner(mem)) && w.user.None?
    ensures Acts(w, e, 2, now) == w.(deploy := None, exportPvc := None, pc := Tidy(ForOwner(mem)))
  {
    var w1 := StepAct(w, e, true, now);
    CleanupNamesMatch(w, e, ForOwner(mem));
    assert w1 == w.(deploy := None, pc := DropExport(ForOwner(mem)));
    assert Acts(w, e, 2, now) == Acts(w1, e, 1, now);
    assert Acts(w1, e, 1, now) == Acts(StepAct(w1, e, true, now), e, 0, now);
  }

  // ---- writes that fail ----

  /** A failed write of the give-back touches nothing and is reported, unless the export is over for another reason. */
  lemma FailedGiveBackIsReported(w: World, e: Export, mem: Mem, now: nat)
    requires Cleaning(w.pc) && w.pc.why == ForOwner(mem) && Fresh(w, mem.orig) && mem.cur.finalizers == mem.orig.finalizers
    requires w.pc.RestorePv? ==> Restore(w.pc.snap.pv) != Some(w.pc.snap.pv)
    ensures var w' := StepAct(StepAct(w, e, false, now), e, true, now);
            && ObjectsOf(w') == ObjectsOf(w) && w'.pc == Idle
            && w'.de.Some? && w'.de.value.finalizers == mem.orig.finalizers
            && w'.de.value.ready ==
               if mem.cur.ready.Some? && mem.cur.ready.value.reason in {RExpired, RDeleted} then mem.cur.ready
               else Some(Verdict(False, RCleanupFailed))
  {
    assert StepAct(w, e, false, now) == Finish(w, mem, CleanupFailed, now);
    FinishStores(w, e, mem, CleanupFailed, now);
  }

  /** A failed write of the taking touches nothing and leaves the verdict for the next reconcile. */
  lemma FailedTakeIsRetried(w: World, e: Export, d: DataExport, now: nat)
    requires Providing(w.pc) && !w.pc.Await? && w.pc.mem == Mem(d, d) && Fresh(w, d) && Provides(d) && d.phase == Pending
    ensures StepAct(StepAct(w, e, false, now), e, true, now) == w.(pc := Idle)
  {
    assert StepAct(w, e, false, now) == Finish(w, Mem(d, d), OtherError, now);
    FinishStores(w, e, Mem(d, d), OtherError, now);
  }

  // ---- over every run ----

  // A forced removal is for good, and this controller knows of no phase of an import.
  predicate NotOfImport(d: DataExport) {
    d.phase != Completed && d.phase != Failed
  }

  predicate MemPhases(mem: Mem) {
    NotOfImport(mem.orig) && NotOfImport(mem.cur)
  }

  predicate PcPhases(pc: Pc) {
    match pc
    case Idle => true
    case CreateExport(mem, _) => MemPhases(mem)
    case MarkUser(mem, _, _) => MemPhases(mem)
    case LendPv(mem, _, _) => MemPhases(mem)
    case Deploy(mem) => MemPhases(mem)
    case Await(mem) => MemPhases(mem)
    case WriteMeta(mem, _) => MemPhases(mem)
    case WriteStatus(mem) => MemPhases(mem)
    case _ => pc.why.ForOwner? ==> MemPhases(pc.why.mem)
  }

  predicate Phases(w: World) {
    && (w.de.Some? ==> NotOfImport(w.de.value))
    && (w.view.Some? ==> NotOfImport(w.view.value))
    && PcPhases(w.pc)
    && (w.forced ==> w.de.None?)
  }

  lemma FinishPhases(w: World, mem: Mem, failure: Failure, now: nat)
    requires Phases(w) && MemPhases(mem)
    ensures Phases(Finish(w, mem, failure, now))
  {}

  lemma ProvidingPhases(w: World, e: Export, ok: bool, now: nat)
    requires Phases(w) && Providing(w.pc)
    ensures Phases(ActProviding(w, e, ok, now))
  {
    var mem := w.pc.mem;
    var w' := ActProviding(w, e, ok, now);
    FinishPhases(w, mem, OtherError, now);
    FinishPhases(w, mem, DeploymentFailed, now);
    FinishPhases(w, mem.(cur := mem.cur.(ready := Some(Verdict(True, RServerReady)))), NoError, now);
    assert w'.de == w.de && w'.view == w.view && w'.forced == w.forced;
  }

  lemma FailPhases(w: World, why: Why, now: nat)
    requires Phases(w) && (why.ForOwner? ==> MemPhases(why.mem))
    ensures Phases(FailCleanup(w, why, now))
  {
    if why.ForOwner? {
      FinishPhases(w, why.mem, CleanupFailed, now);
    }
  }

  lemma RecoverPhases(w: World, e: Export, why: Why, now: nat)
    requires Phases(w) && (why.ForOwner? ==> MemPhases(why.mem))
    ensures Phases(Recover(w, e, why, now))
  {
    FailPhases(w, why, now);
  }

  lemma DropPhases(w: World, e: Export, ok: bool, now: nat)
    requires Phases(w) && (w.pc.DropDeploy? || w.pc.DropExport?)
    ensures Phases(ActCleaning(w, e, ok, now))
  {
    var why := w.pc.why;
    FailPhases(w, why, now);
    if w.pc.DropExport? {
      var gone := w.exportPvc.Some? && w.exportPvc.value.name == CleanupNames(e, why).1;
      RecoverPhases(w.(exportPvc := if gone then None else w.exportPvc), e, why, now);
    }
  }

  lemma EndPhases(w: World, e: Export, ok: bool, now: nat)
    requires Phases(w) && (w.pc.Tidy? || w.pc.FlagPv?)
    ensures Phases(ActCleaning(w, e, ok, now))
  {
    FailPhases(w, w.pc.why, now);
    if w.pc.why.ForOwner? {
      var mem := w.pc.why.mem;
      FinishPhases(w, mem.(cur := mem.cur.(finalizers := [])), NoError, now);
      if w.pc.FlagPv? {
        FinishPhases(w.(pv := MarkedInconsistent(w.pc.snap.pv, e), version := w.version + 1), mem, NoError, now);
      }
    }
  }

  lemma CleaningPhases(w: World, e: Export, ok: bool, now: nat)
    requires Phases(w) && Cleaning(w.pc)
    ensures Phases(ActCleaning(w, e, ok, now))
  {
    if w.pc.DropDeploy? || w.pc.DropExport? {
      DropPhases(w, e, ok, now);
    } else if w.pc.Tidy? || w.pc.FlagPv? {
      EndPhases(w, e, ok, now);
    } else {
      FailPhases(w, w.pc.why, now);
    }
  }

  lemma StartProvidingPhases(w: World, e: Export, mem: Mem, inUse: bool, now: nat)
    requires Phases(w) && MemPhases(mem)
    ensures Phases(StartProviding(w, e, mem, inUse, now))
  {
    FinishPhases(w, mem, OtherError, now);
    FinishPhases(w, mem, TargetNotFound, now);
    FinishPhases(w, mem, PvConflict, now);
    FinishPhases(w, mem.(cur := NotReady(mem.cur, RValidationFailed)), NoError, now);
  }

  lemma ReconcilePhases(w: World, e: Export, now: nat, inUse: bool)
    requires Phases(w)
    ensures Phases(StepReconcile(w, e, now, inUse))
  {
    if w.pc == Idle && w.view.Some? {
      var d := w.view.value;
      if d.deleting {
      } else if IsExpired(d) {
        var expired := if d.ready.Some? && d.ready.value.reason == RExpired then d else NotReady(d, RExpired);
        FinishPhases(w, Mem(d, expired), NoError, now);
      } else if d.phase.IsTerminal() {
        FinishPhases(w, Mem(d, d), NoError, now);
      } else if d.ready.None? {
        FinishPhases(w, Mem(d, NotReady(d, RPending).(finalizers := Reconciled(d.finalizers, FINALIZER, true))), NoError, now);
      } else if d.ready.value.status != True {
        StartProvidingPhases(w, e, Mem(d, d), inUse, now);
      } else {
        FinishPhases(w, Mem(d, d), NoError, now);
        FinishPhases(w, Mem(d, NotReady(d, RPending)), NoError, now);
      }
    }
  }

  lemma ActPhases(w: World, e: Export, ok: bool, now: nat)
    requires Phases(w)
    ensures Phases(StepAct(w, e, ok, now))
  {
    if Providing(w.pc) {
      ProvidingPhases(w, e, ok, now);
    } else if Cleaning(w.pc) {
      CleaningPhases(w, e, ok, now);
    }
  }

  lemma NextPhases(w: World, e: Export, ev: Event)
    requires Phases(w)
    ensures Phases(Next(w, e, ev))
  {
    match ev
    case Reconcile(now, inUse) => ReconcilePhases(w, e, now, inUse);
    case Act(ok, now) => ActPhases(w, e, ok, now);
    case _ =>
  }

  lemma {:induction false} RunPhases(w0: World, e: Export, evs: seq<Event>)
    requires Initial(w0, e)
    ensures Phases(Run(w0, e, evs))
  {
    if evs != [] {
      RunPhases(w0, e, evs[..|evs| - 1]);
      NextPhases(Run(w0, e, evs[..|evs| - 1]), e, evs[|evs| - 1]);
    }
  }

  /** A PV that carries the marks means that our finalizer is there for the next reconcile to see. */
  lemma LentIsHeld(w: World, e: Export)
    requires Inv(w, e) && Phases(w) && Lent(w, e) && w.user.Some? && w.de.Some?
    ensures FINALIZER in w.de.value.finalizers
  {
    assert !Free(w, e);
  }

  /**
   * In every run: once the pod has reported idle expiry, or the export is being deleted, the next reconcile that runs
   * through gives a lent PV back and ends the export. It ends Expired, or Terminating if foreign finalizers hold it.
   */
  lemma LoanEnds(w0: World, e: Export, evs: seq<Event>, now: nat, inUse: bool) returns (n: nat)
    requires Initial(w0, e)
    requires var w := Run(w0, e, evs); w.pc == Idle && Lent(w, e) && UserStays(w) && w.de.Some? && w.view == w.de
    requires var d := Run(w0, e, evs).de.value; d.deleting || d.serverState == IdleExpired
    ensures var w := Run(w0, e, evs);
            var d, w' := w.de.value, Acts(StepReconcile(w, e, now, inUse), e, n, now);
            && n <= 8 && w'.pc == Idle && Returned(w', e)
            && (w'.de.Some? ==> FINALIZER !in w'.de.value.finalizers)
            && (d.deleting && w'.de.Some? ==> w'.de.value.phase == Terminating)
            && (!d.deleting ==>
                  && w'.de.Some? && w'.de.value.completion.Some?
                  && w'.de.value.ready.Some? && w'.de.value.ready.value.reason == RExpired
                  && w'.de.value.phase == Expired)
  {
    var w := Run(w0, e, evs);
    var d := w.de.value;
    RunInv(w0, e, evs);
    RunPhases(w0, e, evs);
    LentIsHeld(w, e);
    if d.deleting {
      n := DeletionGivesBack(w, e, d, now, inUse);
    } else {
      n := ExpiryGivesBack(w, e, d, now, inUse);
    }
  }

  // ---- taking the PV ----

  // The reconcile gets past deletion, expiry, the end of the export and its first acceptance.
  predicate Provides(d: DataExport) {
    && !d.deleting && !IsExpired(d) && !d.phase.IsTerminal()
    && d.ready.Some? && d.ready.value.status != True
  }

  predicate CanBeMarked(user: UserPvc) {
    !(user.deleting && FINALIZER !in user.finalizers)
  }

  function Steps(w: World): nat {
    (if w.exportPvc.None? then 1 else 0) + 3
  }

  lemma MarkThenLend(w: World, e: Export, mem: Mem, uid: Uid, now: nat)
    requires w.pc == MarkUser(mem, Snap(w.pv, w.version), uid) && w.user.Some? && CanBeMarked(w.user.value)
    requires !w.destroyed && !ReadyForExport(w.pv, e)
    ensures Acts(w, e, 3, now) ==
            w.(user := Some(MarkExporting(w.user.value)), pv := Lend(w.pv, e, uid), version := w.version + 1,
               takes := w.takes + 1, deploy := Some(e.Names().deployName), pc := Await(mem))
  {
    var w1 := StepAct(w, e, true, now);
    var w2 := StepAct(w1, e, true, now);
    assert w1 == w.(user := Some(MarkExporting(w.user.value)), pc := LendPv(mem, Snap(w.pv, w.version), uid));
    assert Acts(w, e, 3, now) == Acts(w1, e, 2, now) == Acts(w2, e, 1, now);
    assert Acts(w2, e, 1, now) == Acts(StepAct(w2, e, true, now), e, 0, now);
  }

  /**
   * An unlent PV in working state is taken: the export PVC exists, the user PVC is marked and held, the PV is the one
   * Lend makes of it for that export PVC, and the Deployment is there.
   */
  lemma TakeEndsInLoan(w: World, e: Export, d: DataExport, now: nat)
    requires Inv(w, e) && w.pc == Idle && w.view == Some(d) && Provides(d) && Free(w, e)
    requires w.user.Some? && w.user.value.bound && CanBeMarked(w.user.value)
    requires w.exportPvc.Some? ==> !w.exportPvc.value.lost
    ensures var w' := Acts(StepReconcile(w, e, now, false), e, Steps(w), now);
            && w'.pc == Await(Mem(d, d)) && OnLoan(w', e)
            && w'.exportPvc.Some? && w'.exportPvc.value.name == e.Names().exportPvcName && !w'.exportPvc.value.lost
            && w'.user == Some(MarkExporting(w.user.value))
            && w'.pv == Lend(w.pv, e, w'.exportPvc.value.uid)
            && w'.deploy == Some(e.Names().deployName)
            && w'.takes == w.takes + 1
  {
    var w1 := StepReconcile(w, e, now, false);
    var snap := Snap(w.pv, w.version);
    assert !ReadyForExport(w.pv, e) && WorkingState(w.user.value, w.pv, e) && NotOwnedByAnother(w.pv, e.namespace, e.name);
    if w.exportPvc.None? {
      assert w1 == w.(pc := CreateExport(Mem(d, d), snap));
      var w2 := StepAct(w1, e, true, now);
      assert w2 == w1.(exportPvc := Some(ExportPvc(e.Names().exportPvcName, w.nextUid, false)), nextUid := w.nextUid + 1,
                       pc := MarkUser(Mem(d, d), snap, w.nextUid));
      MarkThenLend(w2, e, Mem(d, d), w.nextUid, now);
      assert Acts(w1, e, 4, now) == Acts(w2, e, 3, now);
    } else {
      assert w1 == w.(pc := MarkUser(Mem(d, d), snap, w.exportPvc.value.uid));
      MarkThenLend(w1, e, Mem(d, d), w.exportPvc.value.uid, now);
    }
  }

  /** The end of a taking: Ready exactly if the pod serves, and otherwise the Deployment is reported. */
  lemma AwaitIsAnswered(w: World, e: Export, d: DataExport, now: nat)
    requires w.pc == Await(Mem(d, d)) && Fresh(w, d) && !d.deleting && !d.phase.IsTerminal() && !IsExpired(d)
    ensures var w' := StepAct(StepAct(w, e, true, now), e, true, now);
            && w'.pc == Idle && w'.de.Some?
            && w'.de.value.ready == Some(if d.serverState == ServerReady then Verdict(True, RServerReady)
                                         else Verdict(False, RDeploymentFailed))
            && w'.de.value.phase == if d.serverState == ServerReady then Phase.Ready else Pending
  {
    FinishStores(w, e, Mem(d, d), DeploymentFailed, now);
    FinishStores(w, e, Mem(d, d.(ready := Some(Verdict(True, RServerReady)))), NoError, now);
  }

  // ---- refusing the PV ----

  /** Why the PV is not taken, by the first obstacle; None for a failure without a verdict of its own. */
  function Refusal(w: World, e: Export, inUse: bool): Option<Option<Reason>> {
    if w.exportPvc.Some? && w.exportPvc.value.name == e.Names().exportPvcName then
      if w.exportPvc.value.lost || w.destroyed then Some(None) else None
    else if w.user.None? then Some(Some(RTargetNotFound))
    else if w.destroyed then Some(None)
    else if !w.user.value.bound || inUse || w.pv.claimRef.None?
            || w.pv.claimRef.value.name != e.userPvcName || w.pv.claimRef.value.namespace != e.namespace
            || (e.userUid != 0 && w.pv.claimRef.value.uid != 0 && e.userUid != w.pv.claimRef.value.uid)
    then Some(Some(RValidationFailed))
    else if HeldByAnother(w.pv, e) then Some(Some(RPVConflict))
    else None
  }

  predicate HeldByAnother(pv: PersistentVolume, e: Export) {
    var a := pv.annotations;
    && (StorageManagerName in a || StorageManagerNamespace in a)
    && !(StorageManagerName in a && a[StorageManagerName] == e.name
         && StorageManagerNamespace in a && a[StorageManagerNamespace] == e.namespace)
  }

  // The end of the reconcile that a refusal leads to.
  function Refused(w: World, d: DataExport, reason: Option<Reason>, now: nat): World {
    if reason == Some(RTargetNotFound) then Finish(w, Mem(d, d), TargetNotFound, now)
    else if reason == Some(RPVConflict) then Finish(w, Mem(d, d), PvConflict, now)
    else if reason == Some(RValidationFailed) then Finish(w, Mem(d, NotReady(d, RValidationFailed)), NoError, now)
    else Finish(w, Mem(d, d), OtherError, now)
  }

  lemma ReconcileRefuses(w: World, e: Export, d: DataExport, now: nat, inUse: bool)
    requires w.pc == Idle && w.view == Some(d) && Provides(d) && Refusal(w, e, inUse).Some?
    ensures StepReconcile(w, e, now, inUse) == Refused(w, d, Refusal(w, e, inUse).value, now)
  {}

  lemma RefusedIsStored(w: World, e: Export, d: DataExport, reason: Option<Reason>, now: nat)
    requires w.pc == Idle && Fresh(w, d) && Provides(d) && d.phase == Pending
    requires reason.None? || reason.value in {RTargetNotFound, RPVConflict, RValidationFailed}
    ensures var w' := StepAct(Refused(w, d, reason, now), e, true, now);
            && w' == w.(de := w'.de, view := w'.view)
            && w'.de == Some(if reason.None? then d else d.(ready := Some(Verdict(False, reason.value))))
  {
    if reason == Some(RTargetNotFound) {
      FinishStores(w, e, Mem(d, d), TargetNotFound, now);
    } else if reason == Some(RPVConflict) {
      FinishStores(w, e, Mem(d, d), PvConflict, now);
    } else if reason == Some(RValidationFailed) {
      FinishStores(w, e, Mem(d, NotReady(d, RValidationFailed)), NoError, now);
    } else {
      FinishStores(w, e, Mem(d, d), OtherError, now);
    }
  }

  /** A refused taking touches nothing and stores the reason; without a verdict of its own the status stays. */
  lemma RefusalIsStored(w: World, e: Export, d: DataExport, now: nat, inUse: bool)
    requires w.pc == Idle && Fresh(w, d) && Provides(d) && d.phase == Pending && Refusal(w, e, inUse).Some?
    ensures var reason := Refusal(w, e, inUse).value;
            var w' := StepAct(StepReconcile(w, e, now, inUse), e, true, now);
            && w' == w.(de := w'.de, view := w'.view)
            && w'.de == Some(if reason.None? then d else d.(ready := Some(Verdict(False, reason.value))))
  {
    ReconcileRefuses(w, e, d, now, inUse);
    RefusedIsStored(w, e, d, Refusal(w, e, inUse).value, now);
  }

  /** And a taking starts exactly where nothing refuses it. */
  lemma TakesUnlessRefused(w: World, e: Export, d: DataExport, now: nat, inUse: bool)
    requires w.pc == Idle && w.view == Some(d) && Provides(d)
    ensures Providing(StepReconcile(w, e, now, inUse).pc) <==> Refusal(w, e, inUse).None?
  {}

  // ---- serving ----

  /** A served export whose Deployment is gone goes back to Pending; with it nothing changes. */
  lemma ServingIsAnswered(w: World, e: Export, d: DataExport, now: nat, inUse: bool)
    requires w.pc == Idle && Fresh(w, d) && !d.deleting && !IsExpired(d)
    requires d.ready.Some? && d.ready.value.status == True && d.phase == Phase.Ready
    ensures var w' := StepAct(StepReconcile(w, e, now, inUse), e, true, now);
            if w.deploy == Some(e.Names().deployName) then w' == w
            else w'.de == Some(d.(ready := Some(Verdict(False, RPending)), phase := Pending)) && ObjectsOf(w') == ObjectsOf(w)
  {
    FinishStores(w, e, Mem(d, d), NoError, now);
    FinishStores(w, e, Mem(d, NotReady(d, RPending)), NoError, now);
  }

  // ---- what the annotations are read as ----

  /** The recovery data of a PV is accepted exactly if every mark is the one its export writes, kind and hash included. */
  lemma ParseExactly(hash: Hash, pv: PersistentVolume, namespace: string, name: string)
    ensures var a, r := pv.annotations, ParseRecoveryInfo(hash, pv, namespace, name);
            && (r == Err(InvalidOriginalPolicy) <==>
                  OriginalReclaimPolicy !in a || forall p: ReclaimPolicy :: a[OriginalReclaimPolicy] != PolicyName(p))
            && (r.Ok? ==>
                  && OriginalReclaimPolicy in a && a[OriginalReclaimPolicy] == PolicyName(r.value.originalPolicy)
                  && DataExporter in pv.labels && pv.labels[DataExporter] == LABEL_ON
                  && Lookup(a, StorageManagerName) == name && Lookup(a, StorageManagerNamespace) == namespace
                  && Lookup(a, UserPvcNamespace) == namespace && r.value.userPvcName == Lookup(a, UserPvcName)
                  && IsValidTargetKind(Lookup(a, TargetKindShort)) && Lookup(a, HashSuffix) == hash(namespace, name))
  {
    ParsePolicyName(Retain);
    ParsePolicyName(Delete);
    ParsePolicyName(Recycle);
  }

  /** A lent PV is refused to every other export, and a PV without marks to none. */
  lemma LentIsRefusedToOthers(pv: PersistentVolume, e: Export, uid: Uid, other: Export)
    ensures NotOwnedByAnother(Lend(pv, e, uid), other.namespace, other.name) <==>
            other.namespace == e.namespace && other.name == e.name
    ensures NoMarks(pv) ==> NotOwnedByAnother(pv, other.namespace, other.name)
  {}
}
