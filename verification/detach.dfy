// Detach mode of the request controller (volumecapturerequest_controller.go processDetachMode): delete a PVC
// and keep its PersistentVolume, across crashes between any two writes. The volumes have policy Retain.
module Detach {
  import opened Options
  import opened Lifecycle
  import opened CaptureRequest

  datatype ClaimState = Live | Deleting | Gone

  // `claimRef` is the claim that holds the volume, by UID.
  datatype Volume = Volume(claimRef: Option<nat>, detached: bool, owners: seq<Owner>)

  // processDetachMode, one constructor per write that is still ahead. `seen` is the volume as it was read.
  datatype Pc =
    | AtRest
    | Annotating(name: nat, seen: Volume)
    | Checking(name: nat, seen: Volume, claimFound: bool)
    | DeletingClaim(name: nat)
    | EnsuringRetainer(name: nat)
    | Rereading(name: nat)
    | Patching(name: nat, seen: Volume)
    | Finishing(status: CaptureStatus)

  datatype World = World(
    uid: nat,                       // of the request
    status: CaptureStatus,
    annotation: Option<nat>,        // detach-pv-name
    claimUid: nat,                  // of the claim to detach
    claim: ClaimState,
    volumeName: Option<nat>,        // its spec.volumeName
    volumes: map<nat, Volume>,
    retainer: bool,                 // the retainer keeper of this request exists
    pc: Pc,
    clock: int,
    claimDeleted: bool,             // the controller has deleted the claim
    denied: bool,                   // the controller was refused access to the claim
    skipped: bool)                  // the last completion found no ClaimRef and no mark, and detached nothing

  datatype Answer = Answered | Denied | Unavailable

  datatype Event =
    | Tick
    | Start(claimAnswer: Answer, volumeAnswers: bool)
    | Step
    | Crash
    | NameVolume(name: nat)         // the claim gets its volumeName, whether or not such a volume exists
    | Appears(name: nat, claimRef: Option<nat>)
    | Rebind(name: nat, claimRef: Option<nat>) // anybody sets or clears the ClaimRef of a volume without the mark
    | UserDeletes
    | ClaimGone
    | OtherAdopts(name: nat, id: nat)

  function Fail(w: World, reason: Reason): World {
    w.(pc := Finishing(Finalized(w.status, w.status.data, Verdict(False, reason), w.clock)))
  }

  function Complete(w: World, name: nat): World {
    w.(pc := Finishing(Finalized(w.status, Some(name), Verdict(True, RCompleted), w.clock)))
  }

  /** The PV name a reconcile goes by once the claim is gone. */
  function RecordedName(w: World): Option<nat> {
    if w.annotation.Some? then w.annotation else w.status.data
  }

  function StepStart(w: World, claimAnswer: Answer, volumeAnswers: bool): World {
    if w.pc != AtRest || IsTerminal(w.status) || claimAnswer == Unavailable then w
    else if claimAnswer == Denied then Fail(w, RRBACDenied).(denied := true)
    else if w.claim == Gone then
      var name := RecordedName(w);
      if name.None? || name.value !in w.volumes || !volumeAnswers then w
      else w.(pc := Checking(name.value, w.volumes[name.value], false))
    else if w.volumeName.None? then Fail(w, RInternalError)
    else
      var name := w.volumeName.value;
      if name !in w.volumes then Fail(w, RNotFound)
      else if !volumeAnswers then w
      else if w.annotation != Some(name) then w.(pc := Annotating(name, w.volumes[name]))
      else w.(pc := Checking(name, w.volumes[name], true))
  }

  function StepRun(w: World): World {
    match w.pc
    case AtRest => w
    case Annotating(name, seen) => w.(annotation := Some(name), pc := Checking(name, seen, true))
    case Checking(name, seen, found) =>
      // whose ClaimRef it is, is not looked at
      if seen.claimRef.None? then Complete(w, name).(skipped := !seen.detached)
      else if found then w.(pc := DeletingClaim(name))
      else w.(pc := EnsuringRetainer(name))
    case DeletingClaim(name) =>
      if w.claim == Gone then w.(pc := EnsuringRetainer(name))
      else w.(claim := Deleting, claimDeleted := true, pc := AtRest)
    case EnsuringRetainer(name) => w.(retainer := true, pc := Rereading(name))
    case Rereading(name) =>
      if name !in w.volumes then w.(pc := AtRest) else w.(pc := Patching(name, w.volumes[name]))
    case Patching(name, seen) => StepPatch(w, name, seen)
    case Finishing(status) => w.(status := status, pc := AtRest)
  }

  /** The re-read copy as the controller edits it: no ClaimRef, the mark, the retainer listed. */
  function Detached(seen: Volume, uid: nat): Volume {
    Volume(None, true, WithOwner(seen.owners, Retainer(uid)))
  }

  /** client.MergeFrom: of an edited copy only the fields that differ from the copy read are sent. */
  function Merged(now: Volume, base: Volume, edited: Volume): Volume {
    Volume(if edited.claimRef != base.claimRef then edited.claimRef else now.claimRef,
           if edited.detached != base.detached then edited.detached else now.detached,
           if edited.owners != base.owners then edited.owners else now.owners)
  }

  function Patched(now: Volume, seen: Volume, uid: nat): Volume {
    Merged(now, seen, Detached(seen, uid))
  }

  function StepPatch(w: World, name: nat, seen: Volume): World {
    if name !in w.volumes then w.(pc := AtRest)
    else
      Complete(w.(volumes := w.volumes[name := Patched(w.volumes[name], seen, w.uid)], skipped := false), name)
  }

  function Next(w: World, ev: Event): World {
    match ev
    case Tick => w.(clock := w.clock + 1)
    case Start(claimAnswer, volumeAnswers) => StepStart(w, claimAnswer, volumeAnswers)
    case Step => StepRun(w)
    case Crash => w.(pc := AtRest)
    case NameVolume(name) =>
      if w.claim == Live && w.volumeName.None? then w.(volumeName := Some(name)) else w
    case Appears(name, claimRef) =>
      if name in w.volumes then w else w.(volumes := w.volumes[name := Volume(claimRef, false, [])])
    case Rebind(name, claimRef) =>
      if name in w.volumes && !w.volumes[name].detached then
        w.(volumes := w.volumes[name := w.volumes[name].(claimRef := claimRef)])
      else w
    case UserDeletes => if w.claim == Live then w.(claim := Deleting) else w
    case ClaimGone => if w.claim == Deleting then w.(claim := Gone) else w
    case OtherAdopts(name, id) =>
      if name in w.volumes then
        w.(volumes := w.volumes[name := w.volumes[name].(owners := WithOwner(w.volumes[name].owners, Other(id)))])
      else w
  }

  function Run(w: World, evs: seq<Event>): World {
    if evs == [] then w else Next(Run(w, evs[..|evs| - 1]), evs[|evs| - 1])
  }

  // No volume carries this request's mark or owner yet.
  predicate Initial(w: World) {
    && w.status == NEW_STATUS && w.annotation.None? && w.pc == AtRest
    && !w.claimDeleted && !w.denied && !w.skipped
    && (forall name | name in w.volumes :: Untouched(w.volumes[name], w.uid))
  }

  predicate Untouched(v: Volume, uid: nat) {
    !v.detached && Retainer(uid) !in v.owners
  }

  // ---- the invariant ----

  /** Mark and owner come together or not at all, and the owner is listed once. */
  predicate AllOrNothing(v: Volume, uid: nat) {
    && (v.detached <==> Retainer(uid) in v.owners)
    && Entries(v.owners, Retainer(uid)) <= 1
  }

  predicate VolumesOk(w: World) {
    forall name | name in w.volumes ::
      if w.annotation == Some(name) then AllOrNothing(w.volumes[name], w.uid) else Untouched(w.volumes[name], w.uid)
  }

  // Since a read other owners may have been added, and the ClaimRef may be another; the mark and our entry are the same.
  predicate SeenOk(w: World, seen: Volume, now: Volume) {
    && seen.owners <= now.owners && seen.detached == now.detached
    && Entries(seen.owners, Retainer(w.uid)) <= 1
    && (Retainer(w.uid) in seen.owners <==> Retainer(w.uid) in now.owners)
  }

  predicate PcOk(w: World) {
    match w.pc
    case AtRest => true
    case Annotating(name, seen) => w.volumeName == Some(name) && name in w.volumes && SeenOk(w, seen, w.volumes[name])
    case Checking(name, seen, found) =>
      w.annotation == Some(name) && name in w.volumes && SeenOk(w, seen, w.volumes[name])
    case DeletingClaim(name) => w.annotation == Some(name)
    case EnsuringRetainer(name) => w.annotation == Some(name)
    case Rereading(name) => w.annotation == Some(name) && w.retainer
    case Patching(name, seen) =>
      && w.annotation == Some(name) && w.retainer && name in w.volumes && SeenOk(w, seen, w.volumes[name])
    case Finishing(status) => StatusOk(status) && IsTerminal(status) && OutcomeOk(w, status)
  }

  // What a terminal status says of the volume: detached, unless the completion was a skip.
  predicate OutcomeOk(w: World, s: CaptureStatus) {
    && (ImportSeesReady(s) ==>
          s.data.Some? && s.data == w.volumeName && s.data.value in w.volumes
          && (w.volumes[s.data.value].detached <==> !w.skipped))
    && (ImportSeesFailed(s) && w.claimDeleted ==> w.denied)
  }

  predicate Inv(w: World) {
    && VolumesOk(w)
    && (w.annotation.Some? ==> w.annotation == w.volumeName && w.annotation.value in w.volumes)
    && (w.claimDeleted ==> w.annotation.Some?)
    && StatusOk(w.status)
    && OutcomeOk(w, w.status)
    && (w.pc != AtRest ==> !IsTerminal(w.status))
    && PcOk(w)
  }

  lemma FailKeeps(w: World, reason: Reason)
    requires Inv(w) && !IsTerminal(w.status) && reason != RTargetsPending && (w.claimDeleted ==> w.denied)
    ensures Inv(Fail(w, reason))
  {}

  lemma JustRead(w: World, name: nat)
    requires VolumesOk(w) && name in w.volumes
    ensures SeenOk(w, w.volumes[name], w.volumes[name])
  {}

  lemma BeginKeeps(w: World, pc: Pc)
    requires Inv(w) && !IsTerminal(w.status) && (pc.Annotating? || pc.Checking?)
    requires pc.name in w.volumes && pc.seen == w.volumes[pc.name]
    requires if pc.Annotating? then w.volumeName == Some(pc.name) else w.annotation == Some(pc.name)
    ensures Inv(w.(pc := pc))
  {
    JustRead(w, pc.name);
    assert PcOk(w.(pc := pc));
  }

  lemma StartGoneKeeps(w: World, volumeAnswers: bool)
    requires Inv(w) && w.pc == AtRest && !IsTerminal(w.status) && w.claim == Gone
    ensures Inv(StepStart(w, Answered, volumeAnswers))
  {
    var w' := StepStart(w, Answered, volumeAnswers);
    if w' != w {
      assert RecordedName(w) == w.annotation;
      BeginKeeps(w, w'.pc);
    }
  }

  lemma StartFoundKeeps(w: World, volumeAnswers: bool)
    requires Inv(w) && w.pc == AtRest && !IsTerminal(w.status) && w.claim != Gone
    ensures Inv(StepStart(w, Answered, volumeAnswers))
  {
    var w' := StepStart(w, Answered, volumeAnswers);
    if w.volumeName.None? {
      FailKeeps(w, RInternalError);
    } else if w.volumeName.value !in w.volumes {
      FailKeeps(w, RNotFound);
    } else if volumeAnswers {
      BeginKeeps(w, w'.pc);
    }
  }

  lemma StartKeeps(w: World, claimAnswer: Answer, volumeAnswers: bool)
    requires Inv(w)
    ensures Inv(StepStart(w, claimAnswer, volumeAnswers))
  {
    if w.pc == AtRest && !IsTerminal(w.status) {
      match claimAnswer
      case Denied => FailKeeps(w.(denied := true), RRBACDenied);
      case Unavailable =>
      case Answered =>
        if w.claim == Gone {
          StartGoneKeeps(w, volumeAnswers);
        } else {
          StartFoundKeeps(w, volumeAnswers);
        }
    }
  }

  lemma PatchKeeps(w: World, name: nat, seen: Volume)
    requires Inv(w) && w.pc == Patching(name, seen)
    ensures Inv(StepPatch(w, name, seen))
  {
    OneEntry(seen.owners, Retainer(w.uid));
  }

  lemma CompleteKeeps(w: World, name: nat)
    requires Inv(w) && !IsTerminal(w.status)
    requires w.volumeName == Some(name) && name in w.volumes && (w.volumes[name].detached <==> !w.skipped)
    ensures Inv(Complete(w, name))
  {}

  lemma CheckKeeps(w: World, name: nat, seen: Volume, found: bool)
    requires Inv(w) && w.pc == Checking(name, seen, found)
    ensures Inv(StepRun(w))
  {
    if seen.claimRef.None? {
      var skipping := w.(skipped := !seen.detached);
      CompleteKeeps(skipping, name);
      assert StepRun(w) == Complete(skipping, name);
    }
  }

  lemma DeleteKeeps(w: World, name: nat)
    requires Inv(w) && w.pc == DeletingClaim(name)
    ensures Inv(StepRun(w))
  {}

  lemma FinishKeeps(w: World, status: CaptureStatus)
    requires Inv(w) && w.pc == Finishing(status)
    ensures Inv(StepRun(w))
  {}

  lemma PrepareKeeps(w: World)
    requires Inv(w) && (w.pc.Annotating? || w.pc.EnsuringRetainer? || w.pc.Rereading?)
    ensures Inv(StepRun(w))
  {}

  lemma RunStepKeeps(w: World)
    requires Inv(w)
    ensures Inv(StepRun(w))
  {
    match w.pc
    case AtRest =>
    case Checking(name, seen, found) => CheckKeeps(w, name, seen, found);
    case DeletingClaim(name) => DeleteKeeps(w, name);
    case Patching(name, seen) => PatchKeeps(w, name, seen);
    case Finishing(status) => FinishKeeps(w, status);
    case _ => PrepareKeeps(w);
  }

  /** Another owner leaves the claim, the mark and our own entry as they are. */
  lemma AdoptVolume(w: World, name: nat, id: nat)
    requires VolumesOk(w) && name in w.volumes
    ensures VolumesOk(Next(w, OtherAdopts(name, id)))
  {
    OneEntry(w.volumes[name].owners, Other(id));
  }

  lemma AdoptPc(w: World, name: nat, id: nat)
    requires PcOk(w) && name in w.volumes
    ensures PcOk(Next(w, OtherAdopts(name, id)))
  {
    var w' := Next(w, OtherAdopts(name, id));
    assert w'.volumes[name].owners == WithOwner(w.volumes[name].owners, Other(id));
    if w.pc.Patching? && w.pc.name == name {
      assert SeenOk(w', w.pc.seen, w'.volumes[name]);
    }
  }

  lemma AdoptKeeps(w: World, name: nat, id: nat)
    requires Inv(w)
    ensures Inv(Next(w, OtherAdopts(name, id)))
  {
    if name in w.volumes {
      AdoptVolume(w, name, id);
      AdoptPc(w, name, id);
    }
  }

  lemma NameVolumeKeeps(w: World, name: nat)
    requires Inv(w)
    ensures Inv(Next(w, NameVolume(name)))
  {
    var w' := Next(w, NameVolume(name));
    if w' != w {
      assert w.annotation.None? && !ImportSeesReady(w.status);
      assert PcOk(w');
    }
  }

  lemma AppearsKeeps(w: World, name: nat, claimRef: Option<nat>)
    requires Inv(w)
    ensures Inv(Next(w, Appears(name, claimRef)))
  {
    var w' := Next(w, Appears(name, claimRef));
    if w' != w {
      assert Untouched(w'.volumes[name], w'.uid);
      assert VolumesOk(w');
      assert PcOk(w');
    }
  }

  /** Who holds an unmarked volume is nobody's promise. */
  lemma RebindKeeps(w: World, name: nat, claimRef: Option<nat>)
    requires Inv(w)
    ensures Inv(Next(w, Rebind(name, claimRef)))
  {
    var w' := Next(w, Rebind(name, claimRef));
    if w' != w {
      assert VolumesOk(w');
      assert PcOk(w');
    }
  }

  lemma ClaimKeeps(w: World, ev: Event)
    requires Inv(w) && (ev.Tick? || ev.Crash? || ev.UserDeletes? || ev.ClaimGone?)
    ensures Inv(Next(w, ev))
  {}

  lemma NextKeeps(w: World, ev: Event)
    requires Inv(w)
    ensures Inv(Next(w, ev))
  {
    match ev
    case Start(claimAnswer, volumeAnswers) => StartKeeps(w, claimAnswer, volumeAnswers);
    case Step => RunStepKeeps(w);
    case OtherAdopts(name, id) => AdoptKeeps(w, name, id);
    case NameVolume(name) => NameVolumeKeeps(w, name);
    case Appears(name, claimRef) => AppearsKeeps(w, name, claimRef);
    case Rebind(name, claimRef) => RebindKeeps(w, name, claimRef);
    case _ => ClaimKeeps(w, ev);
  }

  lemma {:induction false} RunKeeps(w: World, evs: seq<Event>)
    requires Initial(w)
    ensures Inv(Run(w, evs))
  {
    if evs != [] {
      RunKeeps(w, evs[..|evs| - 1]);
      NextKeeps(Run(w, evs[..|evs| - 1]), evs[|evs| - 1]);
    }
  }

  // ---- the theorems ----

  // ---- the answers at the start of a reconcile ----

  /** The verdict that is about to be stored, if the reconcile has one. */
  function Decided(w: World): Option<Verdict> {
    if w.pc.Finishing? then w.pc.status.ready else None
  }

  /**
   * A reconcile of an open request fails for good exactly on these answers, each with its own reason; when the API does
   * not answer, or nothing tells which volume it was, it leaves everything as it is; else it looks at the volume.
   */
  lemma StartAnswers(w: World, evs: seq<Event>, claimAnswer: Answer, volumeAnswers: bool)
    requires Initial(w) && Run(w, evs).pc == AtRest && !IsTerminal(Run(w, evs).status)
    ensures var r := Run(w, evs);
            var r' := Next(r, Start(claimAnswer, volumeAnswers));
            var bound := claimAnswer.Answered? && r.claim != Gone;
            && (claimAnswer == Denied ==> Decided(r') == Some(Verdict(False, RRBACDenied)))
            && (bound && r.volumeName.None? ==> Decided(r') == Some(Verdict(False, RInternalError)))
            && (bound && r.volumeName.Some? && r.volumeName.value !in r.volumes ==>
                  Decided(r') == Some(Verdict(False, RNotFound)))
            && (r'.pc.Finishing? <==>
                  claimAnswer == Denied || (bound && (r.volumeName.None? || r.volumeName.value !in r.volumes)))
            && (claimAnswer == Unavailable ==> r' == r)
            && (claimAnswer.Answered? && r.claim == Gone && r.annotation.None? ==> r' == r)
            && (claimAnswer.Answered? && r.claim == Gone && r.annotation.Some? && volumeAnswers ==>
                  && r.annotation.value in r.volumes
                  && r'.pc == Checking(r.annotation.value, r.volumes[r.annotation.value], false))
            && (bound && r.volumeName.Some? && r.volumeName.value in r.volumes ==>
                  var name := r.volumeName.value;
                  r' == r.(pc := if !volumeAnswers then AtRest
                                 else if r.annotation == Some(name) then Checking(name, r.volumes[name], true)
                                 else Annotating(name, r.volumes[name])))
  {
    RunKeeps(w, evs);
  }

  /** A failure that was answered is stored with its reason and a stamp. */
  lemma FailureIsStored(w: World, evs: seq<Event>)
    requires Initial(w) && Run(w, evs).pc.Finishing?
    ensures var r := Run(w, evs);
            Next(r, Step) == r.(status := r.pc.status, pc := AtRest) && Next(r, Step).status.completion.Some?
  {
    RunKeeps(w, evs);
  }

  /** The controller never deletes a claim whose PV name it has not recorded, and the record is the claim's volume. */
  lemma NameRecordedFirst(w: World, evs: seq<Event>)
    requires Initial(w)
    ensures var r := Run(w, evs);
            (r.claimDeleted ==> r.annotation.Some?) &&
            (r.annotation.Some? ==> r.annotation == r.volumeName && r.annotation.value in r.volumes)
  {
    RunKeeps(w, evs);
  }

  /** After a crash at any point past the claim's deletion, the next reconcile takes up the same, still existing volume. */
  lemma ResumesOnSameVolume(w: World, evs: seq<Event>)
    requires Initial(w)
    requires Run(w, evs).claimDeleted && Run(w, evs).claim == Gone && !IsTerminal(Run(w, evs).status)
    ensures var r := Next(Next(Run(w, evs), Crash), Start(Answered, true));
            && r.volumeName.Some? && r.volumeName.value in r.volumes
            && r.pc == Checking(r.volumeName.value, r.volumes[r.volumeName.value], false)
  {
    RunKeeps(w, evs);
  }

  // A reconcile that meets neither a crash nor an error from here on.
  function Finish(w: World, steps: nat): World
    decreases steps
  {
    if steps == 0 then w else Finish(StepRun(w), steps - 1)
  }

  predicate Completed(w: World) {
    && w.pc == AtRest && ImportSeesReady(w.status)
    && w.volumeName.Some? && w.status.data == w.volumeName && w.volumeName.value in w.volumes
  }

  predicate Done(w: World) {
    && Completed(w)
    && var v := w.volumes[w.volumeName.value];
       (v.claimRef.None? && v.detached && Entries(v.owners, Retainer(w.uid)) == 1)
  }

  lemma PatchIsDone(w: World, name: nat)
    requires Inv(w) && name in w.volumes && w.pc == Patching(name, w.volumes[name])
    ensures Done(Finish(w, 2))
  {
    var w1 := StepRun(w);
    OneEntry(w.volumes[name].owners, Retainer(w.uid));
    var v := w1.volumes[name];
    assert v.claimRef.None? && v.detached && Entries(v.owners, Retainer(w.uid)) == 1;
    assert Finish(w, 2) == Finish(w1, 1) == StepRun(w1);
  }

  lemma PatchedIsDone(w: World, name: nat)
    requires Inv(w) && w.pc == EnsuringRetainer(name)
    ensures Done(Finish(w, 4))
  {
    var w1 := StepRun(w);
    PrepareKeeps(w);
    assert w1 == w.(retainer := true, pc := Rereading(name));
    var w2 := StepRun(w1);
    PrepareKeeps(w1);
    assert w2 == w1.(pc := Patching(name, w.volumes[name]));
    assert Finish(w, 4) == Finish(w1, 3) == Finish(w2, 2);
    PatchIsDone(w2, name);
  }

  /**
   * The retry from there ends Completed whatever preceded the crash: with the volume unbound, marked and owned once if
   * the volume still has a ClaimRef, and otherwise with the volume as it is.
   */
  lemma RetryCompletes(w: World, evs: seq<Event>)
    requires Initial(w)
    requires Run(w, evs).claimDeleted && Run(w, evs).claim == Gone && !IsTerminal(Run(w, evs).status)
    ensures var r := Next(Next(Run(w, evs), Crash), Start(Answered, true));
            && r.pc.Checking?
            && if r.pc.seen.claimRef.Some? then Done(Finish(r, 5))
               else Completed(Finish(r, 2)) && Finish(r, 2).volumes == Run(w, evs).volumes
  {
    ResumesOnSameVolume(w, evs);
    RunKeeps(w, evs);
    NextKeeps(Run(w, evs), Crash);
    NextKeeps(Next(Run(w, evs), Crash), Start(Answered, true));
    CheckingIsDone(Next(Next(Run(w, evs), Crash), Start(Answered, true)));
  }

  lemma CheckingIsDone(w: World)
    requires Inv(w) && w.pc.Checking? && !w.pc.claimFound
    ensures if w.pc.seen.claimRef.Some? then Done(Finish(w, 5))
            else Completed(Finish(w, 2)) && Finish(w, 2).volumes == w.volumes
  {
    var name, w1 := w.pc.name, StepRun(w);
    RunStepKeeps(w);
    if w.pc.seen.claimRef.Some? {
      assert w1 == w.(pc := EnsuringRetainer(name));
      PatchedIsDone(w1, name);
      assert Finish(w, 5) == Finish(w1, 4);
    } else {
      assert Finish(w, 2) == Finish(w1, 1) == StepRun(w1);
    }
  }

  /** A claim that goes away just before the controller deletes it does not stop the reconcile: it goes on to Completed. */
  lemma GoneMeanwhileCompletes(w: World, evs: seq<Event>, name: nat)
    requires Initial(w) && Run(w, evs).pc == DeletingClaim(name) && Run(w, evs).claim == Gone
    requires name in Run(w, evs).volumes
    ensures Done(Finish(Run(w, evs), 5))
  {
    var r := Run(w, evs);
    RunKeeps(w, evs);
    RunStepKeeps(r);
    assert StepRun(r) == r.(pc := EnsuringRetainer(name));
    PatchedIsDone(StepRun(r), name);
    assert Finish(r, 5) == Finish(StepRun(r), 4);
  }

  /** A claim that is still there is deleted, and the reconcile ends until it is gone. */
  lemma DeletesAndWaits(w: World, evs: seq<Event>, name: nat)
    requires Initial(w) && Run(w, evs).pc == DeletingClaim(name) && Run(w, evs).claim != Gone
    ensures var r := Run(w, evs); StepRun(r) == r.(claim := Deleting, claimDeleted := true, pc := AtRest)
  {}

  /** In every reachable state mark and owner are one event, and no other volume gets either. */
  lemma DetachIsAtomic(w: World, evs: seq<Event>, name: nat)
    requires Initial(w) && name in Run(w, evs).volumes
    ensures var r := Run(w, evs); var v := r.volumes[name];
            && (v.detached <==> Retainer(r.uid) in v.owners)
            && Entries(v.owners, Retainer(r.uid)) <= 1
            && (v.detached ==> r.annotation == r.volumeName == Some(name))
  {
    RunKeeps(w, evs);
  }

  /**
   * Completed names the claim's volume, which is then detached exactly unless the completion was a skip. Once the
   * controller has deleted the claim, the request fails only if access to the claim is refused.
   */
  lemma OutcomesAreHonest(w: World, evs: seq<Event>)
    requires Initial(w)
    ensures var r := Run(w, evs); StatusOk(r.status) && OutcomeOk(r, r.status)
  {
    RunKeeps(w, evs);
  }

  // ---- completed without a detach ----

  /** A reconcile completes at its check, and nothing is detached, exactly when the copy it read has no ClaimRef and no mark. */
  lemma SkipsExactly(w: World, evs: seq<Event>, name: nat, seen: Volume, found: bool)
    requires Initial(w) && Run(w, evs).pc == Checking(name, seen, found)
    ensures var r := StepRun(Run(w, evs));
            && (r.pc.Finishing? <==> seen.claimRef.None?)
            && name in r.volumes
            && (r.pc.Finishing? && !r.volumes[name].detached <==> seen.claimRef.None? && !seen.detached)
            && (r.pc.Finishing? ==> ImportSeesReady(r.pc.status) && r.skipped == !seen.detached)
  {
    RunKeeps(w, evs);
  }

  /** A claim that names a volume nobody holds: Completed, the claim still there and the volume as it was. */
  lemma SkippedRun(w: World, name: nat) returns (evs: seq<Event>)
    requires Initial(w) && w.claim == Live && w.volumeName == Some(name)
    requires name in w.volumes && w.volumes[name].claimRef.None?
    ensures var r := Run(w, evs);
            Completed(r) && r.claim == Live && r.volumes == w.volumes && !r.volumes[name].detached
  {
    evs := AnnotatedRun(w, name);
    RunAppend(w, evs, Step);
    evs := evs + [Step];
    RunAppend(w, evs, Step);
    evs := evs + [Step];
  }

  // ---- whose binding the patch removes ----

  predicate Foreign(w: World, claimRef: Option<nat>) {
    claimRef.Some? && claimRef.value != w.claimUid
  }

  /**
   * The patch removes whatever binding the volume has exactly when the re-read saw one, and otherwise leaves it. A
   * binding to another claim is no exception.
   */
  lemma UnbindsExactly(w: World, evs: seq<Event>, name: nat, seen: Volume)
    requires Initial(w) && Run(w, evs).pc == Patching(name, seen)
    ensures var r, r' := Run(w, evs), StepRun(Run(w, evs));
            && name in r.volumes && name in r'.volumes && r'.volumes[name].detached
            && r'.volumes[name].claimRef == (if seen.claimRef.Some? then None else r.volumes[name].claimRef)
            && (Foreign(r, r.volumes[name].claimRef) && r'.volumes[name].claimRef.None? <==>
                Foreign(r, r.volumes[name].claimRef) && seen.claimRef.Some?)
  {
    RunKeeps(w, evs);
  }

  /** A claim that names a volume another claim holds: the other claim loses it, and its own PVC is deleted. */
  lemma ForeignRun(w: World, name: nat) returns (evs: seq<Event>)
    requires Initial(w) && w.claim == Live && w.volumeName == Some(name)
    requires name in w.volumes && Foreign(w, w.volumes[name].claimRef)
    ensures var r := Run(w, evs); Done(r) && r.claim == Gone && r.claimDeleted
  {
    evs := PatchingRun(w, name);
    RunKeeps(w, evs);
    PatchIsDone(Run(w, evs), name);
    var patching := Run(w, evs);
    RunAppend(w, evs, Step);
    evs := evs + [Step];
    RunAppend(w, evs, Step);
    evs := evs + [Step];
    assert Finish(patching, 2) == Finish(StepRun(patching), 1) == StepRun(StepRun(patching));
  }

  lemma ClearedRun(w: World, name: nat) returns (evs: seq<Event>)
    requires Initial(w) && w.claim == Live && w.volumeName == Some(name)
    requires name in w.volumes && w.volumes[name].claimRef.Some?
    ensures var free := w.volumes[name].(claimRef := None);
            Run(w, evs) == AfterCheck(w, name).(volumes := w.volumes[name := free], retainer := true, pc := Patching(name, free))
  {
    evs := CheckedRun(w, name);
    RunAppend(w, evs, Rebind(name, None));
    evs := evs + [Rebind(name, None)];
    var cleared := AfterCheck(w, name).(volumes := w.volumes[name := w.volumes[name].(claimRef := None)]);
    assert Run(w, evs) == cleared;
    RunAppend(w, evs, Step);
    evs := evs + [Step];
    assert Run(w, evs) == cleared.(retainer := true, pc := Rereading(name));
    RunAppend(w, evs, Step);
    evs := evs + [Step];
  }

  /** A ClaimRef cleared before the re-read and set again before the patch survives it: marked, owned and bound. */
  lemma MarkedButBound(w: World, name: nat, other: nat) returns (evs: seq<Event>)
    requires Initial(w) && w.claim == Live && w.volumeName == Some(name)
    requires name in w.volumes && w.volumes[name].claimRef.Some?
    ensures name in Run(w, evs).volumes
    ensures var v := Run(w, evs).volumes[name]; v.detached && v.claimRef == Some(other)
  {
    evs := ClearedRun(w, name);
    RunAppend(w, evs, Rebind(name, Some(other)));
    evs := evs + [Rebind(name, Some(other))];
    var free := w.volumes[name].(claimRef := None);
    var bound := Run(w, evs);
    assert bound.pc == Patching(name, free) && bound.volumes[name] == free.(claimRef := Some(other));
    RunAppend(w, evs, Step);
    evs := evs + [Step];
  }

  /** A terminal request is never written again, in either mode. */
  lemma TerminalIsFinal(w: World, evs: seq<Event>, ev: Event)
    requires Initial(w) && IsTerminal(Run(w, evs).status)
    ensures Run(w, evs).pc == AtRest && Next(Run(w, evs), ev).status == Run(w, evs).status
  {
    RunKeeps(w, evs);
  }

  // ---- the owners that others add meanwhile ----

  /** The unlocked patch keeps an owner exactly when the re-read saw it, or saw our own entry and leaves the list be. */
  lemma OwnerSurvivesPatch(w: World, evs: seq<Event>, name: nat, seen: Volume, o: Owner)
    requires Initial(w) && Run(w, evs).pc == Patching(name, seen)
    requires name in Run(w, evs).volumes && o in Run(w, evs).volumes[name].owners
    ensures var r := Run(w, evs);
            name in StepRun(r).volumes &&
            (o in StepRun(r).volumes[name].owners <==> o in seen.owners || Retainer(r.uid) in seen.owners)
  {
    RunKeeps(w, evs);
  }

  lemma RunAppend(w: World, evs: seq<Event>, ev: Event)
    ensures Run(w, evs + [ev]) == Next(Run(w, evs), ev)
  {
    assert (evs + [ev])[..|evs|] == evs;
  }

  lemma AnnotatedRun(w: World, name: nat) returns (evs: seq<Event>)
    requires Initial(w) && w.claim == Live && w.volumeName == Some(name) && name in w.volumes
    ensures Run(w, evs) == w.(annotation := Some(name), pc := Checking(name, w.volumes[name], true))
  {
    evs := [Start(Answered, true)];
    RunAppend(w, [], Start(Answered, true));
    assert [] + [Start(Answered, true)] == evs;
    assert Run(w, evs) == w.(pc := Annotating(name, w.volumes[name]));
    RunAppend(w, evs, Step);
    evs := evs + [Step];
  }

  /** Up to the claim's deletion: annotate, check, delete, and the claim goes. */
  lemma DeletedRun(w: World, name: nat) returns (evs: seq<Event>)
    requires Initial(w) && w.claim == Live && w.volumeName == Some(name)
    requires name in w.volumes && w.volumes[name].claimRef.Some?
    ensures Run(w, evs) == w.(annotation := Some(name), claim := Gone, claimDeleted := true)
  {
    evs := AnnotatedRun(w, name);
    var annotated := Run(w, evs);
    RunAppend(w, evs, Step);
    evs := evs + [Step];
    assert Run(w, evs) == annotated.(pc := DeletingClaim(name));
    RunAppend(w, evs, Step);
    evs := evs + [Step];
    RunAppend(w, evs, ClaimGone);
    evs := evs + [ClaimGone];
  }

  // The world once the claim has gone and the retry has checked the volume.
  function AfterCheck(w: World, name: nat): World {
    w.(annotation := Some(name), claim := Gone, claimDeleted := true, pc := EnsuringRetainer(name))
  }

  lemma CheckedRun(w: World, name: nat) returns (evs: seq<Event>)
    requires Initial(w) && w.claim == Live && w.volumeName == Some(name)
    requires name in w.volumes && w.volumes[name].claimRef.Some?
    ensures Run(w, evs) == AfterCheck(w, name)
  {
    evs := DeletedRun(w, name);
    var gone := Run(w, evs);
    RunAppend(w, evs, Start(Answered, true));
    evs := evs + [Start(Answered, true)];
    assert Run(w, evs) == gone.(pc := Checking(name, w.volumes[name], false));
    RunAppend(w, evs, Step);
    evs := evs + [Step];
  }

  lemma PatchingRun(w: World, name: nat) returns (evs: seq<Event>)
    requires Initial(w) && w.claim == Live && w.volumeName == Some(name)
    requires name in w.volumes && w.volumes[name].claimRef.Some?
    ensures Run(w, evs) == AfterCheck(w, name).(retainer := true, pc := Patching(name, w.volumes[name]))
  {
    evs := CheckedRun(w, name);
    RunAppend(w, evs, Step);
    evs := evs + [Step];
    assert Run(w, evs) == AfterCheck(w, name).(retainer := true, pc := Rereading(name));
    RunAppend(w, evs, Step);
    evs := evs + [Step];
  }

  /** A run in which an owner added between the re-read and the patch is dropped from the list. */
  lemma OwnerCanBeLost(w: World, name: nat, id: nat) returns (evs: seq<Event>)
    requires Initial(w) && w.claim == Live && w.volumeName == Some(name)
    requires name in w.volumes && w.volumes[name].claimRef.Some?
    requires Other(id) !in w.volumes[name].owners
    ensures name in Run(w, evs).volumes && Other(id) in Run(w, evs).volumes[name].owners
    ensures name in Run(w, evs + [Step]).volumes && Other(id) !in Run(w, evs + [Step]).volumes[name].owners
  {
    evs := PatchingRun(w, name);
    RunAppend(w, evs, OtherAdopts(name, id));
    evs := evs + [OtherAdopts(name, id)];
    RunAppend(w, evs, Step);
    RunKeeps(w, evs);
  }

  // ---- the volume as the controller edits its re-read copy ----

  class VolumeCopy {
    var claimRef: Option<nat>
    var detached: bool
    var owners: seq<Owner>

    constructor (v: Volume)
      ensures Value() == v
    {
      claimRef, detached, owners := v.claimRef, v.detached, v.owners;
    }

    function Value(): Volume
      reads this
    {
      Volume(claimRef, detached, owners)
    }

    /** Drop the ClaimRef, set the mark and list the retainer, before the one patch. */
    method Detach(uid: nat)
      modifies this
      ensures Value() == Detached(old(Value()), uid)
    {
      claimRef := None;
      detached := true;
      var retainerOwnerRefExists := false;
      for i := 0 to |owners|
        invariant owners == old(owners) && claimRef.None? && detached
        invariant retainerOwnerRefExists <==> Retainer(uid) in owners[..i]
      {
        if owners[i] == Retainer(uid) {
          retainerOwnerRefExists := true;
          break;
        }
      }
      if !retainerOwnerRefExists {
        owners := owners + [Retainer(uid)];
      }
    }
  }
}
