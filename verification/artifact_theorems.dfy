// What every run of ArtifactMachine keeps, and what follows for the captured data.
module ArtifactTheorems {
  import opened Options
  import opened Lifecycle
  import opened CaptureRequest
  import opened ArtifactMachine

  // ---- what holds whether or not the import still exists ----

  predicate UidsOk(w: World) {
    && (forall a | a in w.history :: a < w.nextUid)
    && (w.request.Some? ==> w.request.value.uid < w.nextUid)
    && (!w.capturer.CaptureRests? ==> w.capturer.uid < w.nextUid)
  }

  predicate HistoryOk(w: World) {
    && (forall a | a in w.history :: w.history[a] != [])
    && (forall a | a in w.live :: a in w.history)
    && (forall a, i | a in w.history && 0 <= i < |w.history[a]| :: w.history[a][i].owners != [])
  }

  predicate CapturerOk(c: Capturer) {
    match c
    case EnsuringRetainer(_, seen) => StatusOk(seen) && !IsTerminal(seen)
    case Targeting(_, seen) => StatusOk(seen) && !IsTerminal(seen)
    case Finishing(_, status) => StatusOk(status) && IsTerminal(status)
    case _ => true
  }

  predicate StatusInv(w: World) {
    && CapturerOk(w.capturer)
    && (w.request.Some? ==> StatusOk(w.request.value.status))
    && (!w.capturer.CaptureRests? && w.request.Some? ==> !IsTerminal(w.request.value.status))
    && !w.collector.Reap?
  }

  // ---- what holds while the import exists ----

  /** The content exists, is pinned, and the import's keeper, which exists, is among its owners. */
  predicate Safe(w: World, a: nat) {
    && Exists(w, a)
    && Last(w, a).retain
    && w.keeper.Some?
    && ImportKeeper(w.keeper.value) in Last(w, a).owners
  }

  // A content named after the current request exists and hangs on that request's live retainer.
  predicate Anchored(w: World, a: nat) {
    a in w.history ==> Exists(w, a) && a in w.retainers && Retainer(a) in Last(w, a).owners
  }

  predicate RequestInv(w: World) {
    && (w.request.Some? ==>
          && Anchored(w, w.request.value.uid)
          && (w.request.value.status.data.Some? ==>
                w.request.value.status.data.value == w.request.value.uid && w.request.value.uid in w.history))
    && (!w.capturer.CaptureRests? ==> w.request.Some? && w.request.value.uid == w.capturer.uid)
    && (w.capturer.Targeting? || w.capturer.Creating? ==> w.capturer.uid in w.retainers)
    && (w.capturer.Finishing? && w.capturer.status.data.Some? ==>
          w.capturer.status.data.value == w.capturer.uid && w.capturer.uid in w.history)
    && (w.collector != CollectorRests ==> w.request.Some? && IsTerminal(w.request.value.status))
  }

  // Whatever an old copy of a content shows of the pin and of our keeper is still so.
  predicate CopiesInv(w: World) {
    && (forall a, i | a in w.history && 0 <= i < |w.history[a]| && w.history[a][i].retain ::
          Last(w, a).retain)
    && (forall a, i, o | a in w.history && 0 <= i < |w.history[a]| && o in w.history[a][i].owners && o.ImportKeeper? ::
          OwnerAlive(w, o) && a in w.live && o in Last(w, a).owners)
  }

  predicate ImporterInv(w: World)
    requires HistoryOk(w)
  {
    match w.importer
    case ImportRests => true
    case AtKeeper => true
    case AtRequest(k) => w.keeper == Some(k)
    case AtPin(k, a) => w.keeper == Some(k)
    case AtPinPatch(k, a) => w.keeper == Some(k)
    case AtOwner(k, a) => w.keeper == Some(k) && a in w.history && Last(w, a).retain
    case AtOwnerPatch(k, a, version) => w.keeper == Some(k) && a in w.history && Last(w, a).retain
    case AtScratch(k, a) => w.keeper == Some(k) && Safe(w, a)
    case AtPublish(k, a) => w.keeper == Some(k) && Safe(w, a)
  }

  predicate SafeInv(w: World) {
    && (forall a | a in w.released :: Safe(w, a))
    && (w.published.Some? ==> Safe(w, w.published.value))
  }

  predicate AliveInv(w: World)
    requires HistoryOk(w)
  {
    RequestInv(w) && CopiesInv(w) && ImporterInv(w) && SafeInv(w)
  }

  predicate Inv(w: World) {
    && UidsOk(w) && HistoryOk(w) && StatusInv(w)
    && (w.importAlive ==> AliveInv(w))
  }

  // ---- one more version of an existing content ----

  // What a write to an existing content may do: keep the pin and every owner that exists, add only existing owners.
  predicate Gentle(w: World, a: nat, v: Artifact)
    requires Exists(w, a)
  {
    && v.owners != []
    && (Last(w, a).retain ==> v.retain)
    && v.source == Last(w, a).source
    && (forall o | o in Last(w, a).owners && OwnerAlive(w, o) :: o in v.owners)
    && (forall o | o in v.owners :: o in Last(w, a).owners || !o.ImportKeeper? || OwnerAlive(w, o))
  }

  lemma PutBasics(w: World, a: nat, v: Artifact)
    requires UidsOk(w) && HistoryOk(w) && StatusInv(w) && Exists(w, a) && v.owners != []
    ensures var w' := Put(w, a, v);
            && UidsOk(w') && HistoryOk(w') && StatusInv(w') && Last(w', a) == v
            && (forall b | b in w.history && b != a :: Last(w', b) == Last(w, b))
  {}

  lemma PutCopies(w: World, a: nat, v: Artifact)
    requires HistoryOk(w) && CopiesInv(w) && Exists(w, a) && Gentle(w, a, v)
    ensures CopiesInv(Put(w, a, v))
  {
    var w' := Put(w, a, v);
    forall b, i | b in w'.history && 0 <= i < |w'.history[b]| && w'.history[b][i].retain
      ensures Last(w', b).retain
    {
      if b != a || i < |w.history[a]| {
        assert w.history[b][i].retain;
      }
    }
    forall b, i, o | b in w'.history && 0 <= i < |w'.history[b]| && o in w'.history[b][i].owners && o.ImportKeeper?
      ensures OwnerAlive(w', o) && b in w'.live && o in Last(w', b).owners
    {
      if b != a || i < |w.history[a]| {
        assert o in w.history[b][i].owners;
      } else if o in Last(w, a).owners {
        assert o in w.history[a][|w.history[a]| - 1].owners;
      }
    }
  }

  lemma PutKeeps(w: World, a: nat, v: Artifact)
    requires Inv(w) && Exists(w, a) && Gentle(w, a, v)
    ensures Inv(Put(w, a, v))
    ensures w.importAlive ==> forall b | Safe(w, b) :: Safe(Put(w, a, v), b)
  {
    var w' := Put(w, a, v);
    PutBasics(w, a, v);
    if w.importAlive {
      PutCopies(w, a, v);
      forall b | Safe(w, b) ensures Safe(w', b) {}
      assert RequestInv(w');
      assert ImporterInv(w');
    }
  }

  // ---- the import controller ----

  // Steps that touch no content and no request.
  predicate SameObjects(w: World, w': World) {
    && w'.importAlive == w.importAlive && w'.request == w.request && w'.retainers == w.retainers
    && w'.history == w.history && w'.live == w.live && w'.capturer == w.capturer && w'.collector == w.collector
    && (w.keeper.Some? ==> w'.keeper == w.keeper)
    && w.nextUid <= w'.nextUid
  }

  lemma SameObjectsKeeps(w: World, w': World)
    requires Inv(w) && SameObjects(w, w')
    requires w.importAlive ==> ImporterInv(w') && SafeInv(w')
    ensures Inv(w')
  {
    if w.importAlive {
      assert forall a | a in w.history :: Last(w', a) == Last(w, a);
    }
  }

  lemma KeeperStepKeeps(w: World)
    requires Inv(w) && w.importer == AtKeeper
    ensures Inv(StepKeeper(w))
  {
    SameObjectsKeeps(w, StepKeeper(w));
  }

  lemma RequestStepKeeps(w: World, k: nat)
    requires Inv(w) && w.importer == AtRequest(k)
    ensures Inv(StepRequest(w, k))
  {
    var w' := StepRequest(w, k);
    if w.request.Some? {
      SameObjectsKeeps(w, w');
    } else if w.importAlive {
      assert w.nextUid !in w.history;
      assert forall a | Safe(w, a) :: Safe(w', a);
    }
  }

  lemma PinStepKeeps(w: World, k: nat, a: nat, read: nat)
    requires Inv(w) && w.importer == AtPin(k, a)
    ensures Inv(StepPin(w, k, a, read))
  {
    SameObjectsKeeps(w, StepPin(w, k, a, read));
  }

  lemma PinPatchStepKeeps(w: World, k: nat, a: nat)
    requires Inv(w) && w.importer == AtPinPatch(k, a)
    ensures Inv(StepPinPatch(w, k, a))
  {
    var w' := StepPinPatch(w, k, a);
    if Exists(w, a) {
      var v := Last(w, a).(retain := true);
      assert Last(w, a).owners != [] by { assert w.history[a][|w.history[a]| - 1] == Last(w, a); }
      PutKeeps(w, a, v);
      SameObjectsKeeps(Put(w, a, v), w');
    } else {
      SameObjectsKeeps(w, w');
    }
  }

  lemma OwnerStepKeeps(w: World, k: nat, a: nat, read: nat)
    requires Inv(w) && w.importer == AtOwner(k, a)
    ensures Inv(StepOwner(w, k, a, read))
  {
    if w.importAlive && a in w.history && read < |w.history[a]| {
      var o := ImportKeeper(k);
      assert o in w.history[a][read].owners ==> OwnerAlive(w, o) && a in w.live && o in Last(w, a).owners;
    }
    SameObjectsKeeps(w, StepOwner(w, k, a, read));
  }

  lemma OwnerPatchStepKeeps(w: World, k: nat, a: nat, version: nat)
    requires Inv(w) && w.importer == AtOwnerPatch(k, a, version)
    ensures Inv(StepOwnerPatch(w, k, a, version))
  {
    var w' := StepOwnerPatch(w, k, a, version);
    if Exists(w, a) && version == |w.history[a]| - 1 {
      var v := Last(w, a).(owners := WithOwner(Last(w, a).owners, ImportKeeper(k)));
      if w.importAlive {
        PutKeeps(w, a, v);
        SameObjectsKeeps(Put(w, a, v), w');
      } else {
        PutBasics(w, a, v);
      }
    } else {
      SameObjectsKeeps(w, w');
    }
  }

  lemma ImportKeeps(w: World, read: nat)
    requires Inv(w)
    ensures Inv(StepImport(w, read))
  {
    match w.importer
    case ImportRests =>
    case AtKeeper => KeeperStepKeeps(w);
    case AtRequest(k) => RequestStepKeeps(w, k);
    case AtPin(k, a) => PinStepKeeps(w, k, a, read);
    case AtPinPatch(k, a) => PinPatchStepKeeps(w, k, a);
    case AtOwner(k, a) => OwnerStepKeeps(w, k, a, read);
    case AtOwnerPatch(k, a, version) => OwnerPatchStepKeeps(w, k, a, version);
    case AtScratch(k, a) => SameObjectsKeeps(w, StepImport(w, read));
    case AtPublish(k, a) => SameObjectsKeeps(w, StepImport(w, read));
  }

  // ---- the request controller ----

  // Steps of the request controller and the collector: contents and the import's own fields stay.
  predicate SameContents(w: World, w': World) {
    && w'.importAlive == w.importAlive && w'.keeper == w.keeper
    && w'.history == w.history && w'.live == w.live && w'.importer == w.importer
    && w'.released == w.released && w'.published == w.published && w'.nextUid == w.nextUid
  }

  lemma SameContentsKeeps(w: World, w': World)
    requires Inv(w) && SameContents(w, w')
    requires UidsOk(w') && StatusInv(w')
    requires w.importAlive ==> RequestInv(w')
    ensures Inv(w')
  {
    if w.importAlive {
      assert forall a | a in w.history :: Last(w', a) == Last(w, a);
      assert forall a | Safe(w, a) :: Safe(w', a);
    }
  }

  lemma CaptureStartKeeps(w: World, targetOk: bool)
    requires Inv(w)
    ensures Inv(StepCaptureStart(w, targetOk))
  {
    var w' := StepCaptureStart(w, targetOk);
    if w'.capturer != w.capturer {
      WritesKeepStatus(w.request.value.status, Verdict(False, RInternalError), 0, w.clock);
      SameContentsKeeps(w, w');
    }
  }

  lemma TargetKeeps(w: World, uid: nat, seen: CaptureStatus, facts: Facts)
    requires Inv(w) && w.capturer == Targeting(uid, seen)
    ensures Inv(StepTarget(w, uid, seen, facts))
  {
    var w' := StepTarget(w, uid, seen, facts);
    var result := SnapshotTarget(Met(w, facts), ContentOf(w, uid));
    TargetOutcomes(Met(w, facts), ContentOf(w, uid));
    WritesKeepStatus(seen, Verdict(False, if result.Fails? then result.reason else RInternalError), uid, w.clock);
    SameContentsKeeps(w, w');
  }

  /** A content that is new leaves every other content as it was. */
  lemma NewContent(w: World, uid: nat, v: Artifact)
    requires HistoryOk(w) && uid !in w.history && v.owners != []
    ensures var w' := Put(w, uid, v);
            && w'.history == w.history[uid := [v]] && HistoryOk(w') && Last(w', uid) == v
            && (forall a | a in w.history :: Last(w', a) == Last(w, a))
            && (forall a | Safe(w, a) :: Safe(w', a))
  {
    assert [] + [v] == [v];
  }

  lemma NewCopies(w: World, w': World, uid: nat, v: Artifact)
    requires HistoryOk(w) && CopiesInv(w) && uid !in w.history && forall o | o in v.owners :: !o.ImportKeeper?
    requires w'.history == w.history[uid := [v]] && w'.live == w.live + {uid} && w'.keeper == w.keeper
    ensures CopiesInv(w')
  {
    assert forall a | a in w.history :: w'.history[a] == w.history[a];
    assert Last(w', uid) == v;
  }

  lemma CreateAlive(w: World, uid: nat, source: nat, classRetains: bool)
    requires Inv(w) && w.importAlive && w.capturer == Creating(uid, source) && uid !in w.history
    ensures HistoryOk(StepCreate(w, uid, source, classRetains)) && AliveInv(StepCreate(w, uid, source, classRetains))
  {
    var v := Artifact([Retainer(uid)], classRetains, Present(false, false), source);
    var w' := StepCreate(w, uid, source, classRetains);
    NewContent(w, uid, v);
    NewCopies(w, w', uid, v);
    assert SafeInv(w') && ImporterInv(w') && RequestInv(w');
  }

  lemma CreateKeeps(w: World, uid: nat, source: nat, classRetains: bool)
    requires Inv(w) && w.capturer == Creating(uid, source)
    ensures Inv(StepCreate(w, uid, source, classRetains))
  {
    var w' := StepCreate(w, uid, source, classRetains);
    if Exists(w, uid) {
      SameContentsKeeps(w, w');
    } else if w.importAlive {
      assert uid !in w.history;
      CreateAlive(w, uid, source, classRetains);
    }
  }

  lemma CaptureKeeps(w: World, facts: Facts, classRetains: bool)
    requires Inv(w)
    ensures Inv(StepCapture(w, facts, classRetains))
  {
    var w' := StepCapture(w, facts, classRetains);
    match w.capturer
    case CaptureRests =>
    case EnsuringRetainer(uid, seen) => SameContentsKeeps(w, w');
    case Targeting(uid, seen) => TargetKeeps(w, uid, seen, facts);
    case Creating(uid, source) => CreateKeeps(w, uid, source, classRetains);
    case Finishing(uid, status) => SameContentsKeeps(w, w');
    case MarkingPending(uid) => SameContentsKeeps(w, w');
  }

  // ---- the collector and the cluster ----

  lemma CollectKeeps(w: World, read: nat)
    requires Inv(w)
    ensures Inv(StepCollect(w, read))
  {
    if !w.collector.CollectorRests? {
      SameContentsKeeps(w, StepCollect(w, read));
    }
  }

  lemma OwnerGcKeeps(w: World, a: nat)
    requires Inv(w)
    ensures Inv(StepOwnerGc(w, a))
  {
    if Exists(w, a) {
      var v := Last(w, a);
      var alive := AliveOwners(w, v.owners);
      var kept := LiveOwners(v.owners, alive);
      if kept != v.owners && kept != [] {
        PutKeeps(w, a, v.(owners := kept));
      } else if kept == [] && w.importAlive {
        var w' := StepOwnerGc(w, a);
        assert forall o | o in v.owners :: o !in kept && !OwnerAlive(w, o);
        assert !Safe(w, a);
        assert forall b | b in w.history :: Last(w', b) == Last(w, b);
        assert forall b | Safe(w, b) :: Safe(w', b);
      }
    }
  }

  lemma ReportKeeps(w: World, a: nat, csiError: bool, readyToUse: bool)
    requires Inv(w)
    ensures Inv(StepCluster(w, Report(a, csiError, readyToUse)))
  {
    if Exists(w, a) {
      assert Last(w, a).owners != [] by { assert w.history[a][|w.history[a]| - 1] == Last(w, a); }
      PutKeeps(w, a, Last(w, a).(content := Present(csiError, readyToUse)));
    }
  }

  lemma AdoptKeeps(w: World, a: nat, id: nat)
    requires Inv(w)
    ensures Inv(StepCluster(w, OtherAdopts(a, id)))
  {
    if Exists(w, a) && id in w.others {
      PutKeeps(w, a, Last(w, a).(owners := WithOwner(Last(w, a).owners, Other(id))));
    }
  }

  lemma ClusterKeeps(w: World, ev: Event)
    requires Inv(w)
    ensures Inv(StepCluster(w, ev))
  {
    match ev
    case OwnerGc(a) => OwnerGcKeeps(w, a);
    case Report(a, csiError, readyToUse) => ReportKeeps(w, a, csiError, readyToUse);
    case OtherAdopts(a, id) => AdoptKeeps(w, a, id);
    case ImportDeleted =>
    case RequestCascade => GoneKeeps(w, StepCluster(w, ev));
    case KeeperFollows => GoneKeeps(w, StepCluster(w, ev));
    case _ => OthersKeep(w, ev);
  }

  lemma OthersKeep(w: World, ev: Event)
    requires Inv(w) && !ev.OwnerGc? && !ev.Report? && !ev.OtherAdopts?
    requires !ev.ImportDeleted? && !ev.RequestCascade? && !ev.KeeperFollows?
    ensures Inv(StepCluster(w, ev))
  {
    var w' := StepCluster(w, ev);
    assert StatusInv(w') && UidsOk(w');
    SameContentsKeeps(w, w');
  }

  /** What the cluster takes away only once the import is gone. */
  lemma GoneKeeps(w: World, w': World)
    requires Inv(w)
    requires w' == w || (!w.importAlive && (w' == w.(request := None) || w' == w.(keeper := None)))
    ensures Inv(w')
  {}

  lemma RestKeeps(w: World, ev: Event)
    requires Inv(w)
    requires ev.ImportStart? || ev.ImportCrash? || ev.UploadFinishes? || ev.CaptureCrash? || ev.CollectCrash?
    ensures Inv(Next(w, ev))
  {
    if ev.ImportStart? || ev.ImportCrash? || ev.UploadFinishes? {
      SameObjectsKeeps(w, Next(w, ev));
    } else {
      SameContentsKeeps(w, Next(w, ev));
    }
  }

  lemma NextKeeps(w: World, ev: Event)
    requires Inv(w)
    ensures Inv(Next(w, ev))
  {
    match ev
    case ImportStep(read) => ImportKeeps(w, read);
    case CaptureStart(targetOk) => CaptureStartKeeps(w, targetOk);
    case CaptureStep(facts, classRetains) => CaptureKeeps(w, facts, classRetains);
    case CollectStart => CollectStartKeeps(w);
    case CollectStep(read) => CollectKeeps(w, read);
    case ImportStart => RestKeeps(w, ev);
    case ImportCrash => RestKeeps(w, ev);
    case UploadFinishes => RestKeeps(w, ev);
    case CaptureCrash => RestKeeps(w, ev);
    case CollectCrash => RestKeeps(w, ev);
    case _ =>
      assert Next(w, ev) == StepCluster(w, ev);
      ClusterKeeps(w, ev);
  }

  lemma CollectStartKeeps(w: World)
    requires Inv(w)
    ensures Inv(StepCollectStart(w))
  {
    SameContentsKeeps(w, StepCollectStart(w));
  }

  lemma {:induction false} RunKeeps(w: World, evs: seq<Event>)
    requires Initial(w)
    ensures Inv(Run(w, evs))
  {
    if evs != [] {
      RunKeeps(w, evs[..|evs| - 1]);
      NextKeeps(Run(w, evs[..|evs| - 1]), evs[|evs| - 1]);
    }
  }

  // ---- the theorems ----

  /**
   * Artifact survival: while the import exists, every content it relied on when it deleted a scratch PVC, and
   * the one it published, exists, is pinned Retain and is owned by the import's live keeper.
   */
  lemma ArtifactSurvives(w: World, evs: seq<Event>)
    requires Initial(w)
    ensures var r := Run(w, evs);
            && (r.importAlive ==> forall a | a in r.released :: Safe(r, a))
            && (r.importAlive && r.published.Some? ==> Safe(r, r.published.value))
  {
    RunKeeps(w, evs);
  }

  /** In every reachable state the request's data, stamp and Ready condition tell one story. */
  lemma RequestsAreConsistent(w: World, evs: seq<Event>)
    requires Initial(w) && Run(w, evs).request.Some?
    ensures var s := Run(w, evs).request.value.status;
            StatusOk(s) && (ImportSeesReady(s) || ImportSeesFailed(s) <==> IsTerminal(s))
  {
    RunKeeps(w, evs);
    ReadingsAgree(Run(w, evs).request.value.status);
  }

  /** A terminal request is never written again: it stays exactly as it is until it is deleted. */
  lemma TerminalRequestIsFinal(w: World, evs: seq<Event>, ev: Event)
    requires Initial(w)
    requires Run(w, evs).request.Some? && IsTerminal(Run(w, evs).request.value.status)
    ensures var r := Run(w, evs); Next(r, ev).request == r.request || Next(r, ev).request == None
  {
    RunKeeps(w, evs);
    TerminalStays(Run(w, evs), ev);
  }

  lemma TerminalStays(w: World, ev: Event)
    requires StatusInv(w) && w.request.Some? && IsTerminal(w.request.value.status)
    ensures Next(w, ev).request == w.request || Next(w, ev).request == None
  {
    match ev
    case ImportStep(read) => assert StepImport(w, read).request == w.request;
    case CaptureStep(facts, classRetains) => assert w.capturer == CaptureRests;
    case ImportStart =>
    case ImportCrash =>
    case UploadFinishes =>
    case CaptureStart(_) =>
    case CaptureCrash =>
    case CollectStart =>
    case CollectStep(read) =>
    case CollectCrash =>
    case _ => assert StepCluster(w, ev).request == w.request || StepCluster(w, ev).request == None;
  }

  /** The collector's orphan branch is dead for these contents: it deletes requests, never a content. */
  lemma CollectorNeverReaps(w: World, evs: seq<Event>)
    requires Initial(w)
    ensures !Run(w, evs).collector.Reap?
  {
    RunKeeps(w, evs);
  }

  /** No owner is lost: while an owner exists, the content exists and lists it, whoever writes concurrently. */
  lemma OwnersSurvive(w: World, evs: seq<Event>, ev: Event, a: nat, o: Owner)
    requires Initial(w)
    requires Exists(Run(w, evs), a) && o in Last(Run(w, evs), a).owners
    requires OwnerAlive(Run(w, evs), o)
    ensures Exists(Next(Run(w, evs), ev), a) && o in Last(Next(Run(w, evs), ev), a).owners
  {
    RunKeeps(w, evs);
    OwnerStays(Run(w, evs), ev, a, o);
  }

  predicate Owns(w: World, o: Owner, a: nat) {
    Exists(w, a) && o in Last(w, a).owners
  }

  lemma PutOwns(w: World, b: nat, v: Artifact, a: nat, o: Owner)
    requires Exists(w, b) && Owns(w, o, a)
    requires b == a ==> o in v.owners
    ensures Owns(Put(w, b, v), o, a)
  {
    assert Last(Put(w, b, v), a) == if a == b then v else Last(w, a);
  }

  lemma PinOwnerStays(w: World, k: nat, b: nat, a: nat, o: Owner)
    requires Owns(w, o, a)
    ensures Owns(StepPinPatch(w, k, b), o, a)
  {
    if Exists(w, b) {
      PutOwns(w, b, Last(w, b).(retain := true), a, o);
    }
  }

  lemma OwnerPatchOwnerStays(w: World, k: nat, b: nat, version: nat, a: nat, o: Owner)
    requires Owns(w, o, a)
    ensures Owns(StepOwnerPatch(w, k, b, version), o, a)
  {
    if Exists(w, b) {
      PutOwns(w, b, Last(w, b).(owners := WithOwner(Last(w, b).owners, ImportKeeper(k))), a, o);
    }
  }

  lemma ImportOwnerStays(w: World, read: nat, a: nat, o: Owner)
    requires Inv(w) && Owns(w, o, a)
    ensures Owns(StepImport(w, read), o, a)
  {
    match w.importer
    case AtPinPatch(k, b) => PinOwnerStays(w, k, b, a, o);
    case AtOwnerPatch(k, b, version) => OwnerPatchOwnerStays(w, k, b, version, a, o);
    case AtRequest(k) => assert StepRequest(w, k).history == w.history && StepRequest(w, k).live == w.live;
    case AtKeeper => assert StepKeeper(w).history == w.history;
    case AtPin(k, b) => assert StepPin(w, k, b, read).history == w.history;
    case AtOwner(k, b) => assert StepOwner(w, k, b, read).history == w.history;
    case _ => assert StepImport(w, read).history == w.history;
  }

  lemma CaptureOwnerStays(w: World, facts: Facts, classRetains: bool, a: nat, o: Owner)
    requires Inv(w) && Owns(w, o, a)
    ensures Owns(StepCapture(w, facts, classRetains), o, a)
  {
    var w' := StepCapture(w, facts, classRetains);
    match w.capturer
    case Creating(uid, source) => assert uid != a ==> Owns(w', o, a);
    case Targeting(uid, seen) => assert StepTarget(w, uid, seen, facts).history == w.history;
    case _ =>
  }

  lemma OwnerGcOwnerStays(w: World, b: nat, a: nat, o: Owner)
    requires Inv(w) && Owns(w, o, a) && OwnerAlive(w, o)
    ensures Owns(StepOwnerGc(w, b), o, a)
  {
    if Exists(w, b) {
      var kept := LiveOwners(Last(w, b).owners, AliveOwners(w, Last(w, b).owners));
      assert b == a ==> o in kept;
      PutOwns(w, b, Last(w, b).(owners := kept), a, o);
    }
  }

  lemma ClusterOwnerStays(w: World, ev: Event, a: nat, o: Owner)
    requires Inv(w) && Owns(w, o, a) && OwnerAlive(w, o)
    ensures Owns(StepCluster(w, ev), o, a)
  {
    match ev
    case OwnerGc(b) => OwnerGcOwnerStays(w, b, a, o);
    case Report(b, csiError, readyToUse) =>
      if Exists(w, b) {
        PutOwns(w, b, Last(w, b).(content := Present(csiError, readyToUse)), a, o);
      }
    case OtherAdopts(b, id) =>
      if Exists(w, b) && id in w.others {
        PutOwns(w, b, Last(w, b).(owners := WithOwner(Last(w, b).owners, Other(id))), a, o);
      }
    case _ => assert StepCluster(w, ev).history == w.history && StepCluster(w, ev).live == w.live;
  }

  lemma OwnerStays(w: World, ev: Event, a: nat, o: Owner)
    requires Inv(w) && Owns(w, o, a) && OwnerAlive(w, o)
    ensures Owns(Next(w, ev), o, a)
  {
    match ev
    case ImportStart => assert Next(w, ev).history == w.history && Next(w, ev).live == w.live;
    case ImportStep(read) => ImportOwnerStays(w, read, a, o);
    case CaptureStart(_) => assert Next(w, ev).history == w.history && Next(w, ev).live == w.live;
    case CaptureStep(facts, classRetains) => CaptureOwnerStays(w, facts, classRetains, a, o);
    case CollectStart => assert Next(w, ev).history == w.history && Next(w, ev).live == w.live;
    case CollectStep(read) => assert Next(w, ev).history == w.history && Next(w, ev).live == w.live;
    case ImportCrash =>
    case UploadFinishes =>
    case CaptureCrash =>
    case CollectCrash =>
    case _ => ClusterOwnerStays(w, ev, a, o);
  }
}
