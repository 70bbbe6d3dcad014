// What every step of the PV loan keeps.
module PvLoanInvariant {
  import opened Options
  import opened Finalizers
  import opened Lifecycle
  import opened PvLoanObjects
  import opened PvLoanMachine

  // ---- the two shapes of the PV ----

  predicate Free(w: World, e: Export) {
    NoMarks(w.pv) && w.pv.policy == w.base && w.pv.claimRef == Some(e.UserRef())
  }

  predicate OnLoan(w: World, e: Export) {
    && w.pv.claimRef.Some?
    && w.pv.claimRef.value.name == e.Names().exportPvcName
    && w.pv.claimRef.value.namespace == e.controllerNamespace
  }

  predicate Lent(w: World, e: Export) {
    && Marked(w.pv, e, w.base) && w.pv.policy == Retain
    && (OnLoan(w, e) || w.pv.claimRef == Some(e.UserRef()))
  }

  predicate InvPv(w: World, e: Export) {
    && (Free(w, e) || Lent(w, e))
    && DataExporterInconsistent !in w.pv.labels
    && (w.takes == 0 ==> Free(w, e))
    && w.takes <= 1
  }

  // ---- what the controller sees of its own object ----

  predicate OwnEqual(a: DataExport, b: DataExport) {
    SameStatus(a, b) && (FINALIZER in a.finalizers <==> FINALIZER in b.finalizers)
  }

  predicate NotLegacy(d: DataExport) {
    && (d.ready.Some? && d.ready.value.reason == RExpired ==> d.serverState == IdleExpired)
    && d.serverState != Finished
  }

  predicate InvView(w: World) {
    && (w.view.None? ==> w.de.None?)
    && (w.de.Some? ==> NotLegacy(w.de.value))
    && (w.view.Some? ==> NotLegacy(w.view.value))
    && (w.view.Some? && w.de.Some? ==>
          && OwnEqual(w.view.value, w.de.value)
          && (w.view.value.deleting ==> w.de.value.deleting)
          && (w.view.value.serverState == IdleExpired ==> w.de.value.serverState == IdleExpired))
    && (!w.forced && w.de.None? && w.view.Some? ==> FINALIZER !in w.view.value.finalizers)
  }

  // The controller has seen that the export is over; from here it only ever gives back.
  predicate Final(w: World) {
    w.view.Some? ==> w.view.value.deleting || w.view.value.serverState == IdleExpired
  }

  predicate GivingBack(w: World, e: Export) {
    w.takes == 1 && !(Lent(w, e) && OnLoan(w, e))
  }

  predicate SameCore(a: PersistentVolume, b: PersistentVolume) {
    SameButForeign(a.(policy := b.policy), b)
  }

  // A snapshot may be old, but only foreign keys and the policy of an unlent PV can have moved since.
  predicate SnapOk(w: World, snap: Snap) {
    && snap.version <= w.version
    && (snap.version == w.version ==> snap.pv == w.pv)
    && SameCore(snap.pv, w.pv)
    && (DataExporter in w.pv.labels ==> snap.pv.policy == w.pv.policy)
  }

  predicate MemOk(w: World, mem: Mem) {
    && NotLegacy(mem.orig) && NotLegacy(mem.cur) && mem.cur.serverState == mem.orig.serverState
    && (w.view.Some? ==>
          && OwnEqual(mem.orig, w.view.value)
          && (mem.orig.serverState == IdleExpired ==> w.view.value.serverState == IdleExpired)
          && (mem.orig.deleting ==> w.view.value.deleting))
  }

  predicate WhyOk(w: World, e: Export, why: Why) {
    match why
    case ForOwner(mem) => MemOk(w, mem) && (FINALIZER in mem.cur.finalizers <==> FINALIZER in mem.orig.finalizers)
    case ForOrphan(listed) => w.view.None?
  }

  // The user PVC, if it is still there, is as it was before the export, and so is the PV.
  predicate Settled(w: World, e: Export) {
    w.user.Some? ==> Free(w, e) && Unmarked(w.user.value)
  }

  predicate UserHeld(w: World) {
    w.user.Some? && FINALIZER in w.user.value.finalizers
  }

  // Cases that carry the finalizer forward.
  predicate Holding(w: World) {
    !w.forced ==> w.de.Some? && FINALIZER in w.de.value.finalizers
  }

  predicate ProvidingMem(w: World, mem: Mem) {
    && MemOk(w, mem) && mem.orig.ready.Some? && mem.cur.ready.Some?
    && FINALIZER in mem.orig.finalizers && FINALIZER in mem.cur.finalizers
    && mem.cur.serverState == mem.orig.serverState
  }

  predicate HasSnap(pc: Pc) {
    pc.CreateExport? || pc.MarkUser? || pc.LendPv? || pc.RebindPv? || pc.CleanUser? || pc.RestorePv?
  }

  predicate InvSnap(w: World) {
    && (HasSnap(w.pc) ==> SnapOk(w, w.pc.snap))
    && ((w.pc.DropDeploy? || w.pc.DropExport?) && w.pc.why.ForOrphan? ==> SnapOk(w, w.pc.why.listed))
  }

  predicate InvMem(w: World, e: Export) {
    && (Providing(w.pc) ==> ProvidingMem(w, w.pc.mem))
    && (Cleaning(w.pc) ==> WhyOk(w, e, w.pc.why))
    && (w.pc.WriteMeta? ==> MemOk(w, w.pc.mem))
    && (w.pc.WriteStatus? ==> MemOk'(w, w.pc.mem))
  }

  // What is known of the PV and the user PVC at each write of the give-back.
  predicate InvProgress(w: World, e: Export) {
    && (w.pc.LendPv? ==> w.takes == 0 && UserHeld(w))
    && ((w.pc.DropDeploy? || w.pc.DropExport?) && w.pc.why.ForOrphan? ==> Lent(w, e))
    && (w.pc.RebindPv? ==> Lent(w, e))
    && (w.pc.CleanUser? ==> Lent(w, e) && !OnLoan(w, e))
    && (w.pc.RestorePv? ==> Lent(w, e) && !OnLoan(w, e) && (w.user.Some? ==> Unmarked(w.user.value)))
    && (w.pc.CleanRestored? ==> Free(w, e))
    && (w.pc.Tidy? ==> Settled(w, e))
    && !w.pc.FlagPv?
  }

  predicate InvWrite(w: World, e: Export) {
    && (w.pc.WriteMeta? ==>
          && w.pc.want != (FINALIZER in w.pc.mem.orig.finalizers)
          && (!w.pc.want ==> Final(w) && Settled(w, e)))
    && (w.pc.WriteStatus? ==>
          w.de.Some? ==> FINALIZER in w.de.value.finalizers || Final(w) || w.pc.mem.cur.ready.None?)
  }

  predicate InvPc(w: World, e: Export) {
    InvSnap(w) && InvMem(w, e) && InvProgress(w, e) && InvWrite(w, e)
  }

  // Between the two writes the finalizer in storage is already the new one.
  predicate MemOk'(w: World, mem: Mem) {
    && NotLegacy(mem.orig) && NotLegacy(mem.cur) && mem.cur.serverState == mem.orig.serverState
    && (w.view.Some? ==>
          && SameStatus(mem.orig, w.view.value)
          && (mem.orig.serverState == IdleExpired ==> w.view.value.serverState == IdleExpired)
          && (mem.orig.deleting ==> w.view.value.deleting))
  }

  predicate InvOwner(w: World, e: Export) {
    && (Cleaning(w.pc) ==> Final(w))
    && (GivingBack(w, e) ==> Final(w) && !Providing(w.pc))
    && (OnLoan(w, e) ==> UserHeld(w))
    && (Providing(w.pc) ==> Holding(w))
    && (!w.forced && !Holding(w) ==> Settled(w, e))
    && (w.view.Some? && w.view.value.ready.Some? && !Final(w) ==> FINALIZER in w.view.value.finalizers)
  }

  predicate InvWorld(w: World, e: Export) {
    && e.WellFormed()
    && (w.deploy.Some? ==> w.deploy.value == e.Names().deployName)
    && (w.exportPvc.Some? ==> w.exportPvc.value.name == e.Names().exportPvcName)
    && (w.destroyed ==> w.user.None?)
  }

  predicate Inv(w: World, e: Export) {
    InvWorld(w, e) && InvPv(w, e) && InvView(w) && InvOwner(w, e) && InvPc(w, e)
  }

  lemma InitialInv(w: World, e: Export)
    requires Initial(w, e)
    ensures Inv(w, e)
  {}

  lemma UserIsNotExport(e: Export, uid: Uid)
    requires e.WellFormed()
    ensures e.UserRef() != e.ExportRef(uid)
  {}

  // The deferred block never invents the Expired reason and never touches metadata or serverState.
  lemma FinalizeKeeps(d: DataExport, failure: Failure, now: nat)
    requires NotLegacy(d)
    ensures var r := FinalizeStatus(MutateReadyByErr(d, failure), now);
            NotLegacy(r) && r.serverState == d.serverState && r.finalizers == d.finalizers
            && (d.ready.Some? ==> r.ready.Some?)
  {}

  lemma ScheduleInv(w: World, e: Export, mem: Mem)
    requires InvWorld(w, e) && InvPv(w, e) && InvView(w) && InvOwner(w.(pc := Idle), e)
    requires MemOk(w, mem)
    requires FINALIZER !in mem.cur.finalizers && FINALIZER in mem.orig.finalizers ==> Final(w) && Settled(w, e)
    requires Final(w) || (mem.cur.ready.Some? && FINALIZER in mem.cur.finalizers)
    ensures Inv(Schedule(w, mem), e)
  {
    var w' := Schedule(w, mem);
    assert InvWorld(w', e) && InvPv(w', e) && InvView(w');
    assert GivingBack(w', e) == GivingBack(w, e) && OnLoan(w', e) == OnLoan(w, e);
    assert InvOwner(w', e);
  }

  lemma FinishInv(w: World, e: Export, mem: Mem, failure: Failure, now: nat)
    requires InvWorld(w, e) && InvPv(w, e) && InvView(w) && InvOwner(w.(pc := Idle), e)
    requires MemOk(w, mem)
    requires FINALIZER !in mem.cur.finalizers && FINALIZER in mem.orig.finalizers ==> Final(w) && Settled(w, e)
    requires Final(w) || (mem.cur.ready.Some? && FINALIZER in mem.cur.finalizers)
    ensures Inv(Finish(w, mem, failure, now), e)
  {
    FinalizeKeeps(mem.cur, failure, now);
    ScheduleInv(w, e, Mem(mem.orig, FinalizeStatus(MutateReadyByErr(mem.cur, failure), now)));
  }

  // The shapes of the PV do not depend on the DataExport or on the program counter.
  lemma SamePv(w: World, w': World, e: Export)
    requires w'.pv == w.pv && w'.base == w.base && w'.takes == w.takes
    ensures Free(w', e) == Free(w, e) && Lent(w', e) == Lent(w, e) && OnLoan(w', e) == OnLoan(w, e)
    ensures GivingBack(w', e) == GivingBack(w, e) && InvPv(w', e) == InvPv(w, e)
  {}

  lemma IdleInv(w: World, e: Export)
    requires InvWorld(w, e) && InvPv(w, e) && InvView(w) && InvOwner(w.(pc := Idle), e) && w.pc == Idle
    ensures Inv(w, e)
  {
    assert w.(pc := Idle) == w;
  }

  lemma MetaGoneInv(w: World, e: Export, mem: Mem, want: bool)
    requires Inv(w, e) && w.pc == WriteMeta(mem, want) && w.de.Some?
    requires w.de.value.deleting && Reconciled(w.de.value.finalizers, FINALIZER, want) == []
    ensures Inv(w.(de := None, view := None, pc := Idle), e)
  {
    var w' := w.(de := None, view := None, pc := Idle);
    SamePv(w, w', e);
    assert !want;
    assert Settled(w', e) == Settled(w, e);
    assert InvOwner(w', e);
  }

  lemma MetaCommitInv(w: World, e: Export, mem: Mem, want: bool, d': DataExport)
    requires Inv(w, e) && w.pc == WriteMeta(mem, want) && w.de.Some?
    requires d' == w.de.value.(finalizers := Reconciled(w.de.value.finalizers, FINALIZER, want))
    ensures InvOwner(w.(de := Some(d'), view := Some(d'), pc := Idle), e)
    ensures InvView(w.(de := Some(d'), view := Some(d'), pc := Idle))
  {
    var w' := w.(de := Some(d'), view := Some(d'), pc := Idle);
    SamePv(w, w', e);
    assert Settled(w', e) == Settled(w, e);
    assert Final(w) ==> Final(w');
    assert !want ==> Final(w') && Settled(w', e);
  }

  lemma WriteMetaInv(w: World, e: Export, mem: Mem, want: bool, ok: bool)
    requires Inv(w, e) && w.pc == WriteMeta(mem, want)
    ensures Inv(StepWriteMeta(w, mem, want, ok), e)
  {
    if !ok || w.de.None? || (want && w.de.value.deleting && FINALIZER !in w.de.value.finalizers) {
      CrashInv(w, e);
    } else {
      var d' := w.de.value.(finalizers := Reconciled(w.de.value.finalizers, FINALIZER, want));
      if d'.deleting && d'.finalizers == [] {
        MetaGoneInv(w, e, mem, want);
      } else {
        MetaStaysInv(w, e, mem, want, d');
      }
    }
  }

  lemma MetaStaysInv(w: World, e: Export, mem: Mem, want: bool, d': DataExport)
    requires Inv(w, e) && w.pc == WriteMeta(mem, want) && w.de.Some?
    requires !(want && w.de.value.deleting && FINALIZER !in w.de.value.finalizers)
    requires d' == w.de.value.(finalizers := Reconciled(w.de.value.finalizers, FINALIZER, want))
    requires !(d'.deleting && d'.finalizers == [])
    ensures Inv(StepWriteMeta(w, mem, want, true), e)
  {
    MetaCommitInv(w, e, mem, want, d');
    var w' := w.(de := Some(d'), view := Some(d'), pc := Idle);
    SamePv(w, w', e);
    IdleInv(w', e);
    MetaThenStatusInv(w, w', e, mem, want);
  }

  // The metadata write committed and the status write is still to come.
  lemma MetaThenStatusInv(w: World, w': World, e: Export, mem: Mem, want: bool)
    requires InvMem(w, e) && InvWrite(w, e) && w.pc == WriteMeta(mem, want) && w.de.Some? && w.view.Some?
    requires OwnEqual(w.view.value, w.de.value)
    requires w.view.value.deleting ==> w.de.value.deleting
    requires w.view.value.serverState == IdleExpired ==> w.de.value.serverState == IdleExpired
    requires w'.de == w'.view == Some(w.de.value.(finalizers := Reconciled(w.de.value.finalizers, FINALIZER, want)))
    requires Inv(w', e) && w'.pc == Idle
    ensures Inv(w'.(pc := WriteStatus(mem)), e)
  {
    var w'' := w'.(pc := WriteStatus(mem));
    SamePv(w', w'', e);
    assert MemOk'(w'', mem);
    assert want || Final(w');
    assert Settled(w'', e) == Settled(w', e);
    assert InvOwner(w'', e);
  }

  lemma WriteStatusInv(w: World, e: Export, mem: Mem, ok: bool)
    requires Inv(w, e) && w.pc == WriteStatus(mem)
    ensures Inv(StepWriteStatus(w, mem, ok), e)
  {}

  lemma CreateExportInv(w: World, e: Export, mem: Mem, snap: Snap, ok: bool, now: nat)
    requires Inv(w, e) && w.pc == CreateExport(mem, snap)
    ensures Inv(StepCreateExport(w, e, mem, snap, ok, now), e)
  {
    FinishInv(w, e, mem, OtherError, now);
  }

  lemma MarkUserInv(w: World, e: Export, mem: Mem, snap: Snap, exportUid: Uid, ok: bool, now: nat)
    requires Inv(w, e) && w.pc == MarkUser(mem, snap, exportUid)
    ensures Inv(StepMarkUser(w, e, mem, snap, exportUid, ok, now), e)
  {
    FinishInv(w, e, mem, OtherError, now);
    if w.takes == 1 {
      assert Lent(w, e) && OnLoan(w, e);
      assert Marked(snap.pv, e, w.base);
      ParseOfMarked(snap.pv, e, w.base);
      assert ReadyForExport(snap.pv, e);
    }
  }

  lemma LendPvInv(w: World, e: Export, mem: Mem, snap: Snap, exportUid: Uid, ok: bool, now: nat)
    requires Inv(w, e) && w.pc == LendPv(mem, snap, exportUid)
    ensures Inv(StepLendPv(w, e, mem, snap, exportUid, ok, now), e)
  {
    FinishInv(w, e, mem, OtherError, now);
    LendMarks(w.pv, e, exportUid);
  }

  lemma DeployInv(w: World, e: Export, mem: Mem, ok: bool, now: nat)
    requires Inv(w, e) && w.pc == Deploy(mem)
    ensures Inv(StepDeploy(w, e, mem, ok, now), e)
  {
    FinishInv(w, e, mem, OtherError, now);
  }

  lemma AwaitInv(w: World, e: Export, mem: Mem, ok: bool, now: nat)
    requires Inv(w, e) && w.pc == Await(mem)
    ensures Inv(StepAwait(w, mem, ok, now), e)
  {
    FinishInv(w, e, mem, DeploymentFailed, now);
    FinishInv(w, e, mem.(cur := mem.cur.(ready := Some(Verdict(True, RServerReady)))), NoError, now);
  }

  lemma FailCleanupInv(w: World, e: Export, why: Why, now: nat)
    requires InvWorld(w, e) && InvPv(w, e) && InvView(w) && InvOwner(w.(pc := Idle), e)
    requires WhyOk(w, e, why) && Final(w)
    ensures Inv(FailCleanup(w, why, now), e)
  {
    if why.ForOwner? {
      FinishInv(w, e, why.mem, CleanupFailed, now);
    }
  }

  /** A snapshot of a lent PV carries the label and parses; one of an unlent PV carries no label. */
  lemma SnapMarks(w: World, e: Export, snap: Snap)
    requires InvPv(w, e) && SnapOk(w, snap)
    ensures Lent(w, e) ==> Marked(snap.pv, e, w.base) && Lookup(snap.pv.labels, DataExporter) == LABEL_ON
    ensures Lent(w, e) ==> ParseRecoveryInfo(e.hash, snap.pv, e.namespace, e.name).Ok?
    ensures !Lent(w, e) ==> Free(w, e) && Lookup(snap.pv.labels, DataExporter) != LABEL_ON
  {
    if Lent(w, e) {
      assert Marked(snap.pv, e, w.base);
      ParseOfMarked(snap.pv, e, w.base);
    }
  }

  lemma WorkingIsNotOnLoan(w: World, e: Export, user: UserPvc, snap: Snap)
    requires InvPv(w, e) && e.WellFormed() && SnapOk(w, snap) && WorkingState(user, snap.pv, e)
    ensures !OnLoan(w, e)
  {}

  // Where recoverUserPVC goes next, and what it knows when it gets there.
  lemma RecoverShape(w: World, e: Export, why: Why, now: nat)
    requires InvWorld(w, e) && InvPv(w, e) && WhyOk(w, e, why)
    requires why.ForOrphan? ==> Lent(w, e) && SnapOk(w, why.listed)
    requires !(w.user.Some? && why.ForOwner? && w.destroyed)
    ensures var w' := Recover(w, e, why, now);
            w' == w.(pc := w'.pc) && Cleaning(w'.pc) && w'.pc.why == why && InvSnap(w') && InvProgress(w', e)
  {
    var snap := if why.ForOwner? then Snap(w.pv, w.version) else why.listed;
    assert SnapOk(w, snap);
    SnapMarks(w, e, snap);
    var w' := Recover(w, e, why, now);
    SamePv(w, w', e);
    if w.user.Some? && WorkingState(w.user.value, snap.pv, e) {
      WorkingIsNotOnLoan(w, e, w.user.value, snap);
    }
  }

  lemma RecoverInv(w: World, e: Export, why: Why, now: nat)
    requires InvWorld(w, e) && InvPv(w, e) && InvView(w) && InvOwner(w.(pc := Idle), e)
    requires WhyOk(w, e, why) && Final(w) && (why.ForOrphan? ==> Lent(w, e) && SnapOk(w, why.listed))
    ensures Inv(Recover(w, e, why, now), e)
  {
    if w.user.Some? && why.ForOwner? && w.destroyed {
      FailCleanupInv(w, e, why, now);
    } else {
      RecoverShape(w, e, why, now);
      CleaningInv(w, Recover(w, e, why, now), e);
    }
  }

  // Entering a step of the give-back: only what that step relies on has to be shown.
  lemma CleaningInv(w: World, w': World, e: Export)
    requires InvWorld(w, e) && InvPv(w, e) && InvView(w) && InvOwner(w.(pc := Idle), e) && Final(w)
    requires w' == w.(pc := w'.pc) && Cleaning(w'.pc)
    requires InvSnap(w') && WhyOk(w, e, w'.pc.why) && InvProgress(w', e)
    ensures Inv(w', e)
  {
    SamePv(w, w', e);
    assert Settled(w', e) == Settled(w, e);
    assert MemSame(w, w');
  }

  // Memory is judged against the view only.
  predicate MemSame(w: World, w': World) {
    w'.view == w.view
  }

  lemma DropDeployInv(w: World, e: Export, why: Why, ok: bool, now: nat)
    requires Inv(w, e) && w.pc == DropDeploy(why)
    ensures Inv(StepDropDeploy(w, e, why, ok, now), e)
  {
    if !ok {
      FailCleanupInv(w, e, why, now);
    } else {
      var w' := StepDropDeploy(w, e, why, ok, now);
      var undeployed := w.(deploy := w'.deploy);
      SamePv(w, undeployed, e);
      CleaningInv(undeployed, w', e);
    }
  }

  lemma DropExportInv(w: World, e: Export, why: Why, ok: bool, now: nat)
    requires Inv(w, e) && w.pc == DropExport(why)
    ensures Inv(StepDropExport(w, e, why, ok, now), e)
  {
    if !ok {
      FailCleanupInv(w, e, why, now);
    } else {
      var gone := w.exportPvc.Some? && w.exportPvc.value.name == CleanupNames(e, why).1;
      var dropped := w.(exportPvc := if gone then None else w.exportPvc);
      SamePv(w, dropped, e);
      RecoverInv(dropped, e, why, now);
    }
  }

  /** Pointing a lent PV back leaves it lent, with the same marks. */
  lemma ReboundPv(w: World, e: Export, snap: Snap)
    requires InvWorld(w, e) && InvPv(w, e) && Lent(w, e) && SnapOk(w, snap) && snap.version == w.version
    requires InvOwner(w.(pc := Idle), e) && Final(w) && w.takes == 1
    ensures var w' := w.(pv := Rebind(snap.pv, e), version := w.version + 1);
            && Lent(w', e) && !OnLoan(w', e) && InvPv(w', e) && InvOwner(w'.(pc := Idle), e)
  {
    UserIsNotExport(e, 0);
    var w' := w.(pv := Rebind(snap.pv, e), version := w.version + 1);
    assert Marked(w'.pv, e, w'.base);
    assert !Free(w, e) && !Free(w', e);
  }

  lemma RebindPvInv(w: World, e: Export, why: Why, snap: Snap, ok: bool, now: nat)
    requires Inv(w, e) && w.pc == RebindPv(why, snap)
    ensures Inv(StepRebindPv(w, e, why, snap, ok, now), e)
  {
    if !ok || w.destroyed || snap.version != w.version {
      FailCleanupInv(w, e, why, now);
    } else {
      var w' := StepRebindPv(w, e, why, snap, ok, now);
      var rebound := w.(pv := w'.pv, version := w'.version);
      ReboundPv(w, e, snap);
      CleaningInv(rebound, w', e);
    }
  }

  /** Unmarking the user PVC of a PV that is not on loan takes nothing away that the owner's side relies on. */
  lemma UnmarkedOwner(w: World, e: Export)
    requires InvOwner(w.(pc := Idle), e) && w.user.Some? && !OnLoan(w, e)
    ensures var w' := w.(user := Released(UnmarkExporting(w.user.value)));
            && InvOwner(w'.(pc := Idle), e) && (w'.user.Some? ==> Unmarked(w'.user.value))
  {
    var w' := w.(user := Released(UnmarkExporting(w.user.value)));
    MarkUnmark(w.user.value);
    SamePv(w, w', e);
  }

  lemma CleanUserInv(w: World, e: Export, why: Why, snap: Snap, ok: bool, now: nat)
    requires Inv(w, e) && w.pc == CleanUser(why, snap)
    ensures Inv(StepCleanUser(w, why, snap, ok, now), e)
  {
    if !ok || w.user.None? {
      FailCleanupInv(w, e, why, now);
    } else {
      var w' := StepCleanUser(w, why, snap, ok, now);
      UnmarkedOwner(w, e);
      SamePv(w, w', e);
      CleaningInv(w.(user := w'.user), w', e);
    }
  }

  lemma CleanRestoredInv(w: World, e: Export, why: Why, ok: bool, now: nat)
    requires Inv(w, e) && w.pc == CleanRestored(why)
    ensures Inv(StepCleanRestored(w, why, ok, now), e)
  {
    if !ok || w.user.None? {
      FailCleanupInv(w, e, why, now);
    } else {
      var w' := StepCleanRestored(w, why, ok, now);
      UserIsNotExport(e, 0);
      UnmarkedOwner(w, e);
      SamePv(w, w', e);
      CleaningInv(w.(user := w'.user), w', e);
    }
  }

  lemma RestorePvInv(w: World, e: Export, why: Why, snap: Snap, ok: bool, now: nat)
    requires Inv(w, e) && w.pc == RestorePv(why, snap)
    ensures Inv(StepRestorePv(w, why, snap, ok, now), e)
  {
    FailCleanupInv(w, e, why, now);
    assert Marked(snap.pv, e, w.base);
    RestoreOfMarked(snap.pv, e, w.base);
  }

  lemma TidyInv(w: World, e: Export, why: Why, ok: bool, now: nat)
    requires Inv(w, e) && w.pc == Tidy(why)
    ensures Inv(StepTidy(w, why, ok, now), e)
  {
    FailCleanupInv(w, e, why, now);
    if why.ForOwner? {
      FinishInv(w, e, why.mem.(cur := why.mem.cur.(finalizers := [])), NoError, now);
    }
  }

  /** The first write of providing, on the PV as it was just read. */
  lemma FirstWriteInv(w: World, e: Export, pc: Pc)
    requires Inv(w, e) && w.pc == Idle && !Final(w) && Holding(w)
    requires pc.CreateExport? || pc.MarkUser?
    requires ProvidingMem(w, pc.mem) && pc.snap == Snap(w.pv, w.version)
    ensures Inv(w.(pc := pc), e)
  {
    SamePv(w, w.(pc := pc), e);
  }

  lemma StartProvidingInv(w: World, e: Export, mem: Mem, inUse: bool, now: nat)
    requires Inv(w, e) && w.pc == Idle && ProvidingMem(w, mem) && !Final(w) && Holding(w)
    ensures Inv(StartProviding(w, e, mem, inUse, now), e)
  {
    var w' := StartProviding(w, e, mem, inUse, now);
    assert w.(pc := Idle) == w;
    if Providing(w'.pc) {
      FirstWriteInv(w, e, w'.pc);
    } else if w' == Finish(w, mem, OtherError, now) {
      FinishInv(w, e, mem, OtherError, now);
    } else if w' == Finish(w, mem, TargetNotFound, now) {
      FinishInv(w, e, mem, TargetNotFound, now);
    } else if w' == Finish(w, mem, PvConflict, now) {
      FinishInv(w, e, mem, PvConflict, now);
    } else {
      FinishInv(w, e, mem.(cur := NotReady(mem.cur, RValidationFailed)), NoError, now);
    }
  }

  lemma StartOrphanInv(w: World, e: Export)
    requires Inv(w, e) && w.pc == Idle && w.view.None?
    ensures Inv(StartOrphan(w, e), e)
  {
    if Lent(w, e) {
      ParseOfMarked(w.pv, e, w.base);
    }
  }

  lemma ReconcileOverInv(w: World, e: Export, now: nat, inUse: bool)
    requires Inv(w, e) && w.pc == Idle && w.view.Some?
    requires w.view.value.deleting || IsExpired(w.view.value)
    ensures Inv(StepReconcile(w, e, now, inUse), e)
  {
    var d := w.view.value;
    assert Final(w);
    assert w.(pc := Idle) == w;
    if d.deleting {
      CleaningInv(w, w.(pc := DropDeploy(ForOwner(Mem(d, d)))), e);
    } else {
      var expired := Mem(d, if d.ready.Some? && d.ready.value.reason == RExpired then d else NotReady(d, RExpired));
      if FINALIZER in d.finalizers {
        CleaningInv(w, w.(pc := DropDeploy(ForOwner(expired))), e);
      } else {
        FinishInv(w, e, expired, NoError, now);
      }
    }
  }

  lemma ReconcileLiveInv(w: World, e: Export, now: nat, inUse: bool)
    requires Inv(w, e) && w.pc == Idle && w.view.Some?
    requires !w.view.value.deleting && !IsExpired(w.view.value) && !w.view.value.phase.IsTerminal()
    ensures Inv(StepReconcile(w, e, now, inUse), e)
  {
    var d := w.view.value;
    assert w.(pc := Idle) == w;
    if d.ready.None? {
      FinishInv(w, e, Mem(d, NotReady(d, RPending).(finalizers := Reconciled(d.finalizers, FINALIZER, true))),
                NoError, now);
    } else if d.ready.value.status != True {
      StartProvidingInv(w, e, Mem(d, d), inUse, now);
    } else if w.deploy != Some(e.Names().deployName) {
      FinishInv(w, e, Mem(d, NotReady(d, RPending)), NoError, now);
    } else {
      FinishInv(w, e, Mem(d, d), NoError, now);
    }
  }

  lemma ReconcileInv(w: World, e: Export, now: nat, inUse: bool)
    requires Inv(w, e)
    ensures Inv(StepReconcile(w, e, now, inUse), e)
  {
    if w.pc != Idle {
    } else if w.view.None? {
      StartOrphanInv(w, e);
    } else if w.view.value.deleting || IsExpired(w.view.value) {
      ReconcileOverInv(w, e, now, inUse);
    } else if w.view.value.phase.IsTerminal() {
      ReconcileTerminalInv(w, e, now);
    } else {
      ReconcileLiveInv(w, e, now, inUse);
    }
  }

  // A terminal phase leaves the body inert: nothing differs from what is stored.
  lemma ReconcileTerminalInv(w: World, e: Export, now: nat)
    requires Inv(w, e) && w.pc == Idle && w.view.Some?
    requires !w.view.value.deleting && !IsExpired(w.view.value) && w.view.value.phase.IsTerminal()
    ensures Inv(Finish(w, Mem(w.view.value, w.view.value), NoError, now), e)
  {}

  lemma ActProvidingInv(w: World, e: Export, ok: bool, now: nat)
    requires Inv(w, e) && Providing(w.pc)
    ensures Inv(ActProviding(w, e, ok, now), e)
  {
    match w.pc
    case CreateExport(mem, snap) => CreateExportInv(w, e, mem, snap, ok, now);
    case MarkUser(mem, snap, uid) => MarkUserInv(w, e, mem, snap, uid, ok, now);
    case LendPv(mem, snap, uid) => LendPvInv(w, e, mem, snap, uid, ok, now);
    case Deploy(mem) => DeployInv(w, e, mem, ok, now);
    case Await(mem) => AwaitInv(w, e, mem, ok, now);
  }

  lemma ActCleaningInv(w: World, e: Export, ok: bool, now: nat)
    requires Inv(w, e) && Cleaning(w.pc)
    ensures Inv(ActCleaning(w, e, ok, now), e)
  {
    match w.pc
    case DropDeploy(why) => DropDeployInv(w, e, why, ok, now);
    case DropExport(why) => DropExportInv(w, e, why, ok, now);
    case RebindPv(why, snap) => RebindPvInv(w, e, why, snap, ok, now);
    case CleanUser(why, snap) => CleanUserInv(w, e, why, snap, ok, now);
    case RestorePv(why, snap) => RestorePvInv(w, e, why, snap, ok, now);
    case CleanRestored(why) => CleanRestoredInv(w, e, why, ok, now);
    case Tidy(why) => TidyInv(w, e, why, ok, now);
    case FlagPv(why, snap) =>
  }

  lemma ActWritingInv(w: World, e: Export, ok: bool)
    requires Inv(w, e) && !Providing(w.pc) && !Cleaning(w.pc)
    ensures Inv(ActWriting(w, ok), e)
  {
    match w.pc
    case WriteMeta(mem, want) => WriteMetaInv(w, e, mem, want, ok);
    case WriteStatus(mem) => WriteStatusInv(w, e, mem, ok);
    case Idle =>
  }

  lemma ActInv(w: World, e: Export, ok: bool, now: nat)
    requires Inv(w, e)
    ensures Inv(StepAct(w, e, ok, now), e)
  {
    if Providing(w.pc) {
      ActProvidingInv(w, e, ok, now);
    } else if Cleaning(w.pc) {
      ActCleaningInv(w, e, ok, now);
    } else {
      ActWritingInv(w, e, ok);
    }
  }

  // ---- steps of everybody else ----

  // The rest of the world moved, but not the PV, and nothing the controller holds on to was undone.
  predicate Quiet(w: World, w': World) {
    && w'.pc == w.pc && w'.pv == w.pv && w'.version == w.version && w'.base == w.base && w'.takes == w.takes
    && (w.forced ==> w'.forced)
    && (w'.view.Some? ==>
          && w.view.Some? && OwnEqual(w.view.value, w'.view.value)
          && (w.view.value.deleting ==> w'.view.value.deleting)
          && (w.view.value.serverState == IdleExpired ==> w'.view.value.serverState == IdleExpired))
    && (w'.de.Some? ==> w.de.Some? && (FINALIZER in w'.de.value.finalizers <==> FINALIZER in w.de.value.finalizers))
    && (w'.de.None? && !w'.forced ==> w.de.None? || FINALIZER !in w.de.value.finalizers)
    && (w'.user.Some? ==> w.user.Some? && (Unmarked(w.user.value) ==> Unmarked(w'.user.value)))
    && (UserHeld(w) ==> UserHeld(w'))
  }

  lemma QuietPv(w: World, w': World, e: Export)
    requires Quiet(w, w')
    ensures Free(w', e) == Free(w, e) && Lent(w', e) == Lent(w, e) && OnLoan(w', e) == OnLoan(w, e)
    ensures GivingBack(w', e) == GivingBack(w, e) && InvPv(w', e) == InvPv(w, e)
    ensures Final(w) ==> Final(w')
    ensures Settled(w, e) ==> Settled(w', e)
    ensures InvSnap(w) ==> InvSnap(w')
  {
    SamePv(w, w', e);
    assert Final(w) ==> Final(w');
    if InvSnap(w) && HasSnap(w.pc) {
      assert SnapOk(w', w.pc.snap);
    }
  }

  lemma QuietMem(w: World, w': World, e: Export)
    requires Quiet(w, w') && InvMem(w, e)
    ensures InvMem(w', e)
  {
    if w'.view.Some? {
      forall mem: Mem ensures MemOk(w, mem) ==> MemOk(w', mem) {}
      forall mem: Mem ensures MemOk'(w, mem) ==> MemOk'(w', mem) {}
    }
  }

  lemma QuietPc(w: World, w': World, e: Export)
    requires Inv(w, e) && Quiet(w, w')
    ensures InvPc(w', e)
  {
    QuietPv(w, w', e);
    QuietMem(w, w', e);
    assert InvProgress(w', e);
    assert InvWrite(w', e);
  }

  lemma QuietInv(w: World, w': World, e: Export)
    requires Inv(w, e) && Quiet(w, w') && InvWorld(w', e) && InvView(w')
    ensures Inv(w', e)
  {
    QuietPc(w, w', e);
    QuietPv(w, w', e);
    assert Holding(w) ==> Holding(w');
    assert InvOwner(w', e);
  }

  /** Only the DataExport, or what the controller sees of it, moved. */
  lemma ExportQuietInv(w: World, w': World, e: Export)
    requires Inv(w, e) && Quiet(w, w') && InvView(w')
    requires w' == w.(de := w'.de, view := w'.view, forced := w'.forced)
    ensures Inv(w', e)
  {
    QuietInv(w, w', e);
  }

  lemma RefreshInv(w: World, e: Export)
    requires Inv(w, e)
    ensures Inv(w.(view := w.de), e)
  {
    QuietInv(w, w.(view := w.de), e);
  }

  lemma UserDeletesExportQuiet(w: World)
    requires InvView(w)
    ensures Quiet(w, StepUserDeletesExport(w)) && InvView(StepUserDeletesExport(w))
    ensures var w' := StepUserDeletesExport(w); w' == w.(de := w'.de, view := w'.view, forced := w'.forced)
  {}

  lemma UserDeletesExportInv(w: World, e: Export)
    requires Inv(w, e)
    ensures Inv(StepUserDeletesExport(w), e)
  {
    UserDeletesExportQuiet(w);
    ExportQuietInv(w, StepUserDeletesExport(w), e);
  }

  lemma ForceRemoveExportInv(w: World, e: Export)
    requires Inv(w, e)
    ensures Inv(w.(de := None, forced := true), e)
  {
    QuietInv(w, w.(de := None, forced := true), e);
  }

  lemma EditForeignFinalizersQuiet(w: World, finalizers: seq<string>)
    requires InvView(w)
    ensures Quiet(w, StepEditForeignFinalizers(w, finalizers)) && InvView(StepEditForeignFinalizers(w, finalizers))
    ensures var w' := StepEditForeignFinalizers(w, finalizers); w' == w.(de := w'.de, view := w'.view, forced := w'.forced)
  {}

  lemma EditForeignFinalizersInv(w: World, e: Export, finalizers: seq<string>)
    requires Inv(w, e)
    ensures Inv(StepEditForeignFinalizers(w, finalizers), e)
  {
    EditForeignFinalizersQuiet(w, finalizers);
    ExportQuietInv(w, StepEditForeignFinalizers(w, finalizers), e);
  }

  lemma PodReportsInv(w: World, e: Export, expired: bool)
    requires Inv(w, e)
    ensures Inv(StepPodReports(w, expired), e)
  {
    QuietInv(w, StepPodReports(w, expired), e);
  }

  lemma UserDeletesPvcInv(w: World, e: Export)
    requires Inv(w, e)
    ensures Inv(StepUserDeletesPvc(w), e)
  {
    QuietInv(w, StepUserDeletesPvc(w), e);
  }

  lemma ReleaseUserPvcInv(w: World, e: Export)
    requires Inv(w, e)
    ensures Inv(StepReleaseUserPvc(w), e)
  {
    QuietInv(w, StepReleaseUserPvc(w), e);
  }

  lemma BinderReportsInv(w: World, e: Export, bound: bool)
    requires Inv(w, e) && w.user.Some?
    ensures Inv(w.(user := Some(w.user.value.(bound := bound))), e)
  {
    QuietInv(w, w.(user := Some(w.user.value.(bound := bound))), e);
  }

  /** Reclaiming needs a policy other than Retain, which only an unlent PV has, and then the user PVC is gone. */
  lemma ReclaimInv(w: World, e: Export)
    requires Inv(w, e)
    ensures Inv(StepReclaim(w, e), e)
  {
    if w.pv.policy != Retain {
      assert Free(w, e);
    }
    QuietInv(w, StepReclaim(w, e), e);
  }

  /** The export PVC and the Deployment may go, or the export PVC may be reported lost. */
  lemma EnvironmentInv(w: World, w': World, e: Export)
    requires Inv(w, e)
    requires w' == w.(exportPvc := w'.exportPvc, deploy := w'.deploy)
    requires w'.exportPvc.Some? ==> w.exportPvc.Some? && w'.exportPvc.value.name == w.exportPvc.value.name
    requires w'.deploy.Some? ==> w'.deploy == w.deploy
    ensures Inv(w', e)
  {
    QuietInv(w, w', e);
  }

  lemma CrashInv(w: World, e: Export)
    requires Inv(w, e)
    ensures Inv(w.(pc := Idle), e)
  {
    assert Free(w.(pc := Idle), e) == Free(w, e) && Lent(w.(pc := Idle), e) == Lent(w, e);
  }

  // Somebody else wrote the PV: every snapshot the controller holds is now older than the PV.
  lemma SnapOutdated(w: World, w': World, snap: Snap)
    requires SnapOk(w, snap) && w'.version == w.version + 1 && SameCore(w.pv, w'.pv)
    requires DataExporter in w'.pv.labels ==> w'.pv.policy == w.pv.policy
    ensures SnapOk(w', snap) && snap.version != w'.version
  {}

  lemma PvEditShapes(w: World, w': World, e: Export)
    requires InvPv(w, e)
    requires w' == w.(pv := w'.pv, version := w.version + 1, base := w'.base) && SameCore(w.pv, w'.pv)
    requires if DataExporter in w.pv.labels then w'.base == w.base && w'.pv.policy == w.pv.policy
             else w'.pv.policy == w'.base
    ensures Free(w', e) == Free(w, e) && Lent(w', e) == Lent(w, e) && OnLoan(w', e) == OnLoan(w, e)
    ensures GivingBack(w', e) == GivingBack(w, e) && InvPv(w', e)
    ensures Settled(w', e) == Settled(w, e)
  {}

  lemma PvEditInv(w: World, w': World, e: Export)
    requires Inv(w, e)
    requires w' == w.(pv := w'.pv, version := w.version + 1, base := w'.base) && SameCore(w.pv, w'.pv)
    requires if DataExporter in w.pv.labels then w'.base == w.base && w'.pv.policy == w.pv.policy
             else w'.pv.policy == w'.base
    ensures Inv(w', e)
  {
    PvEditShapes(w, w', e);
    if HasSnap(w.pc) {
      SnapOutdated(w, w', w.pc.snap);
    }
    if (w.pc.DropDeploy? || w.pc.DropExport?) && w.pc.why.ForOrphan? {
      SnapOutdated(w, w', w.pc.why.listed);
    }
    assert InvSnap(w');
    assert MemSame(w, w') && InvMem(w', e);
    assert InvProgress(w', e);
    assert InvOwner(w', e);
  }

  lemma TouchPvInv(w: World, e: Export, pv: PersistentVolume)
    requires Inv(w, e)
    ensures Inv(Next(w, e, TouchPv(pv)), e)
  {
    if !w.destroyed && SameButForeign(w.pv, pv) {
      var w' := w.(pv := pv, version := w.version + 1);
      assert Next(w, e, TouchPv(pv)) == w';
      PvEditInv(w, w', e);
    } else {
      assert Next(w, e, TouchPv(pv)) == w;
    }
  }

  lemma AdminSetsPolicyInv(w: World, e: Export, policy: ReclaimPolicy)
    requires Inv(w, e)
    ensures Inv(Next(w, e, AdminSetsPolicy(policy)), e)
  {
    if !w.destroyed && DataExporter !in w.pv.labels {
      var w' := w.(pv := w.pv.(policy := policy), base := policy, version := w.version + 1);
      assert Next(w, e, AdminSetsPolicy(policy)) == w';
      PvEditInv(w, w', e);
    } else {
      assert Next(w, e, AdminSetsPolicy(policy)) == w;
    }
  }

  lemma ExportEventInv(w: World, e: Export, ev: Event)
    requires Inv(w, e)
    requires ev.UserDeletesExport? || ev.ForceRemoveExport? || ev.EditForeignFinalizers? || ev.PodReports? || ev.Refresh?
    ensures Inv(Next(w, e, ev), e)
  {
    match ev
    case Refresh => RefreshInv(w, e);
    case UserDeletesExport => UserDeletesExportInv(w, e);
    case ForceRemoveExport => ForceRemoveExportInv(w, e);
    case EditForeignFinalizers(finalizers) => EditForeignFinalizersInv(w, e, finalizers);
    case PodReports(expired) => PodReportsInv(w, e, expired);
  }

  lemma ClaimEventInv(w: World, e: Export, ev: Event)
    requires Inv(w, e) && (ev.UserDeletesPvc? || ev.ReleaseUserPvc? || ev.BinderReports? || ev.Crash?)
    ensures Inv(Next(w, e, ev), e)
  {
    match ev
    case Crash => CrashInv(w, e);
    case UserDeletesPvc => UserDeletesPvcInv(w, e);
    case ReleaseUserPvc => ReleaseUserPvcInv(w, e);
    case BinderReports(bound) => if w.user.Some? { BinderReportsInv(w, e, bound); }
  }

  lemma OthersInv(w: World, e: Export, ev: Event)
    requires Inv(w, e) && !ev.Reconcile? && !ev.Act?
    ensures Inv(Next(w, e, ev), e)
  {
    if ev.TouchPv? {
      TouchPvInv(w, e, ev.pv);
    } else if ev.AdminSetsPolicy? {
      AdminSetsPolicyInv(w, e, ev.policy);
    } else if ev.Reclaim? {
      ReclaimInv(w, e);
    } else if ev.UserDeletesPvc? || ev.ReleaseUserPvc? || ev.BinderReports? || ev.Crash? {
      ClaimEventInv(w, e, ev);
    } else if ev.RemoveExportPvc? || ev.LoseExportPvc? || ev.RemoveDeployment? {
      EnvironmentInv(w, Next(w, e, ev), e);
    } else {
      ExportEventInv(w, e, ev);
    }
  }

  lemma NextInv(w: World, e: Export, ev: Event)
    requires Inv(w, e)
    ensures Inv(Next(w, e, ev), e)
  {
    match ev
    case Reconcile(now, inUse) => ReconcileInv(w, e, now, inUse);
    case Act(ok, now) => ActInv(w, e, ok, now);
    case _ => OthersInv(w, e, ev);
  }

  /** The invariant holds after every sequence of events. */
  lemma {:induction false} RunInv(w: World, e: Export, evs: seq<Event>)
    requires Initial(w, e)
    ensures Inv(Run(w, e, evs), e)
  {
    if evs == [] {
      InitialInv(w, e);
    } else {
      RunInv(w, e, evs[..|evs| - 1]);
      NextInv(Run(w, e, evs[..|evs| - 1]), e, evs[|evs| - 1]);
    }
  }
}
