// How many contents one import comes to rely on, and of which volume the published content is a capture.
module ArtifactUniqueness {
  import opened Options
  import opened Lifecycle
  import opened CaptureRequest
  import opened ArtifactMachine
  import opened ArtifactTheorems

  // ---- one content ----

  predicate InFlight(i: Importer) {
    i.AtPin? || i.AtPinPatch? || i.AtOwner? || i.AtOwnerPatch? || i.AtScratch? || i.AtPublish?
  }

  // The contents the import has relied on, or is about to.
  function Relied(w: World): set<nat> {
    w.released
    + (if w.published.Some? then {w.published.value} else {})
    + (if InFlight(w.importer) then {w.importer.a} else {})
  }

  // Until the import publishes it relies on its current request's content only, and after that it rests.
  predicate OneContent(w: World) {
    w.importAlive ==>
      && (w.published.None? ==> forall a | a in Relied(w) :: w.request.Some? && a == w.request.value.uid)
      && (w.published.Some? ==>
            && w.importer == ImportRests && Relied(w) == {w.published.value}
            && (w.request.Some? ==> w.request.value.uid == w.published.value))
  }

  /** The event does not delete the request of an import that relies on a content and has not published yet. */
  predicate KeepsRequest(w: World, ev: Event) {
    w.importAlive && w.published.None? && Relied(w) != {} ==> !(ev.CollectStep? && w.collector == DeleteRequest)
  }

  /** Steps that add nothing to rely on and leave the request's identity. */
  lemma OneContentFrame(w: World, w': World)
    requires OneContent(w)
    requires w'.importAlive ==> w.importAlive
    requires w'.published == w.published && Relied(w') <= Relied(w)
    requires w'.importAlive && w.published.Some? ==> w'.importer == ImportRests && w'.released == w.released
    requires w'.importAlive && w'.request.Some? ==>
               w.request.Some? && w'.request.value.uid == w.request.value.uid
    requires w'.importAlive && w.published.None? && w.request.Some? ==> w'.request.Some?
    ensures OneContent(w')
  {}

  lemma RequestOneContent(w: World, k: nat)
    requires Inv(w) && OneContent(w) && w.importer == AtRequest(k)
    ensures OneContent(StepRequest(w, k))
  {
    var w' := StepRequest(w, k);
    if w.request.None? {
      assert Relied(w') == Relied(w);
      assert w.importAlive ==> Relied(w) == {};
    } else if w'.importer == ImportRests {
      OneContentFrame(w, w');
    } else if w.importAlive {
      assert w'.importer.a == w.request.value.uid;
      assert Relied(w') == Relied(w) + {w'.importer.a};
    }
  }

  lemma PublishOneContent(w: World, k: nat, a: nat)
    requires OneContent(w) && w.importer == AtPublish(k, a)
    ensures OneContent(StepImport(w, 0))
  {
    var w' := StepImport(w, 0);
    if w.importAlive {
      assert a in Relied(w);
      assert forall b | b in w.released :: b in Relied(w) && b == a;
      assert Relied(w') == {a};
    }
  }

  lemma ImportOneContent(w: World, read: nat)
    requires Inv(w) && OneContent(w)
    ensures OneContent(StepImport(w, read))
  {
    match w.importer
    case AtRequest(k) => RequestOneContent(w, k);
    case AtPin(k, a) => OneContentFrame(w, StepPin(w, k, a, read));
    case AtPinPatch(k, a) => OneContentFrame(w, StepPinPatch(w, k, a));
    case AtOwner(k, a) => OneContentFrame(w, StepOwner(w, k, a, read));
    case AtOwnerPatch(k, a, version) => OneContentFrame(w, StepOwnerPatch(w, k, a, version));
    case AtScratch(k, a) => OneContentFrame(w, StepImport(w, read));
    case AtPublish(k, a) => PublishOneContent(w, k, a);
    case AtKeeper => OneContentFrame(w, StepKeeper(w));
    case ImportRests =>
  }

  lemma CaptureOneContent(w: World, facts: Facts, classRetains: bool)
    requires OneContent(w)
    ensures OneContent(StepCapture(w, facts, classRetains))
  {
    match w.capturer
    case Targeting(uid, seen) => OneContentFrame(w, StepTarget(w, uid, seen, facts));
    case Creating(uid, source) => OneContentFrame(w, StepCreate(w, uid, source, classRetains));
    case _ => OneContentFrame(w, StepCapture(w, facts, classRetains));
  }

  lemma ClusterOneContent(w: World, ev: Event)
    requires OneContent(w)
    ensures OneContent(StepCluster(w, ev))
  {
    match ev
    case OwnerGc(a) => OneContentFrame(w, StepOwnerGc(w, a));
    case RequestCascade => if w.importAlive { OneContentFrame(w, w); }
    case _ => OneContentFrame(w, StepCluster(w, ev));
  }

  lemma CollectOneContent(w: World, read: nat)
    requires OneContent(w) && KeepsRequest(w, CollectStep(read))
    ensures OneContent(StepCollect(w, read))
  {
    var w' := StepCollect(w, read);
    assert Relied(w') == Relied(w);
  }

  lemma OneContentKept(w: World, ev: Event)
    requires Inv(w) && OneContent(w) && KeepsRequest(w, ev)
    ensures OneContent(Next(w, ev))
  {
    match ev
    case ImportStart => OneContentFrame(w, StepImportStart(w));
    case ImportStep(read) => ImportOneContent(w, read);
    case ImportCrash => OneContentFrame(w, Next(w, ev));
    case UploadFinishes => OneContentFrame(w, StepUploadFinishes(w));
    case CaptureStart(targetOk) => OneContentFrame(w, StepCaptureStart(w, targetOk));
    case CaptureStep(facts, classRetains) => CaptureOneContent(w, facts, classRetains);
    case CaptureCrash => OneContentFrame(w, Next(w, ev));
    case CollectStart => OneContentFrame(w, StepCollectStart(w));
    case CollectStep(read) => CollectOneContent(w, read);
    case CollectCrash => OneContentFrame(w, Next(w, ev));
    case _ => ClusterOneContent(w, ev);
  }

  // ---- the scratch volume and the upload ----

  // The scratch PVC is the one the upload went into exactly until the first release deletes it.
  predicate ScratchInv(w: World) {
    && (w.scratch.Some? ==> w.scratch.value < w.nextUid)
    && (w.uploadedTo.Some? ==> w.uploadedTo.value < w.nextUid)
    && (w.importer != ImportRests || w.request.Some? || w.released != {} ==> w.uploadedTo.Some?)
    && (w.uploadedTo.Some? ==> (w.scratch == w.uploadedTo <==> w.released == {}))
  }

  lemma ScratchFrame(w: World, w': World)
    requires ScratchInv(w)
    requires w'.scratch == w.scratch && w'.uploadedTo == w.uploadedTo && w'.released == w.released
    requires w.nextUid <= w'.nextUid
    requires w'.importer != ImportRests || w'.request.Some? ==> w.importer != ImportRests || w.request.Some?
    ensures ScratchInv(w')
  {}

  lemma ImportScratch(w: World, read: nat)
    requires ScratchInv(w)
    ensures ScratchInv(StepImport(w, read))
  {
    match w.importer
    case AtRequest(k) => ScratchFrame(w, StepRequest(w, k));
    case AtPin(k, a) => ScratchFrame(w, StepPin(w, k, a, read));
    case AtPinPatch(k, a) => ScratchFrame(w, StepPinPatch(w, k, a));
    case AtOwner(k, a) => ScratchFrame(w, StepOwner(w, k, a, read));
    case AtOwnerPatch(k, a, version) => ScratchFrame(w, StepOwnerPatch(w, k, a, version));
    case AtScratch(_, a) => assert a in StepImport(w, read).released;
    case AtKeeper => ScratchFrame(w, StepKeeper(w));
    case _ => ScratchFrame(w, StepImport(w, read));
  }

  lemma TargetScratch(w: World, uid: nat, seen: CaptureStatus, facts: Facts)
    requires ScratchInv(w)
    ensures ScratchInv(StepTarget(w, uid, seen, facts))
  {
    var w' := StepTarget(w, uid, seen, facts);
    assert w' == w.(capturer := w'.capturer);
  }

  lemma CreateScratch(w: World, uid: nat, source: nat, classRetains: bool)
    requires ScratchInv(w)
    ensures ScratchInv(StepCreate(w, uid, source, classRetains))
  {
    var w' := StepCreate(w, uid, source, classRetains);
    assert w' == w.(history := w'.history, live := w'.live, capturer := w'.capturer);
  }

  lemma CaptureScratch(w: World, facts: Facts, classRetains: bool)
    requires ScratchInv(w)
    ensures ScratchInv(StepCapture(w, facts, classRetains))
  {
    match w.capturer
    case Targeting(uid, seen) => TargetScratch(w, uid, seen, facts);
    case Creating(uid, source) => CreateScratch(w, uid, source, classRetains);
    case _ =>
      var w' := StepCapture(w, facts, classRetains);
      assert w' == w.(request := w'.request, retainers := w'.retainers, capturer := w'.capturer);
  }

  lemma ClusterScratch(w: World, ev: Event)
    requires ScratchInv(w)
    ensures ScratchInv(StepCluster(w, ev))
  {
    match ev
    case OwnerGc(a) => ScratchFrame(w, StepOwnerGc(w, a));
    case _ => ScratchFrame(w, StepCluster(w, ev));
  }

  lemma StartScratch(w: World)
    requires ScratchInv(w)
    ensures ScratchInv(StepImportStart(w)) && ScratchInv(StepUploadFinishes(w))
  {}

  lemma ScratchKept(w: World, ev: Event)
    requires ScratchInv(w)
    ensures ScratchInv(Next(w, ev))
  {
    match ev
    case ImportStart => StartScratch(w);
    case UploadFinishes => StartScratch(w);
    case ImportStep(read) => ImportScratch(w, read);
    case ImportCrash => ScratchFrame(w, Next(w, ev));
    case CaptureStart(targetOk) => ScratchFrame(w, StepCaptureStart(w, targetOk));
    case CaptureStep(facts, classRetains) => CaptureScratch(w, facts, classRetains);
    case CaptureCrash => ScratchFrame(w, Next(w, ev));
    case CollectStart => ScratchFrame(w, StepCollectStart(w));
    case CollectStep(read) => ScratchFrame(w, StepCollect(w, read));
    case CollectCrash => ScratchFrame(w, Next(w, ev));
    case _ => ClusterScratch(w, ev);
  }

  lemma {:induction false} ScratchOver(w: World, evs: seq<Event>)
    requires Initial(w)
    ensures ScratchInv(Run(w, evs))
  {
    if evs != [] {
      ScratchOver(w, evs[..|evs| - 1]);
      ScratchKept(Run(w, evs[..|evs| - 1]), evs[|evs| - 1]);
    }
  }

  // What a living import is busy with exists in some version, and it publishes only what it has released.
  predicate FlightInv(w: World) {
    && (w.importer.AtPublish? ==> w.importer.a in w.released)
    && (w.importAlive && InFlight(w.importer) ==> w.importer.a in w.history)
  }

  lemma FlightFrame(w: World, w': World)
    requires FlightInv(w)
    requires w'.importer == w.importer && w'.released == w.released && (w'.importAlive ==> w.importAlive)
    requires forall a | a in w.history :: a in w'.history
    ensures FlightInv(w')
  {}

  lemma PatchFlight(w: World, k: nat, a: nat, version: nat)
    requires FlightInv(w) && InFlight(w.importer) && w.importer.a == a
    ensures FlightInv(StepPinPatch(w, k, a)) && FlightInv(StepOwnerPatch(w, k, a, version))
  {}

  lemma ReadFlight(w: World, k: nat, a: nat, read: nat)
    requires FlightInv(w) && InFlight(w.importer) && w.importer.a == a
    ensures FlightInv(StepPin(w, k, a, read)) && FlightInv(StepOwner(w, k, a, read))
  {}

  lemma ImportFlight(w: World, read: nat)
    requires Inv(w) && FlightInv(w)
    ensures FlightInv(StepImport(w, read))
  {
    match w.importer
    case AtPin(k, a) => ReadFlight(w, k, a, read);
    case AtOwner(k, a) => ReadFlight(w, k, a, read);
    case AtPinPatch(k, a) => PatchFlight(w, k, a, 0);
    case AtOwnerPatch(k, a, version) => PatchFlight(w, k, a, version);
    case AtRequest(k) => assert FlightInv(StepRequest(w, k));
    case _ =>
  }

  lemma CaptureFlight(w: World, facts: Facts, classRetains: bool)
    requires FlightInv(w)
    ensures FlightInv(StepCapture(w, facts, classRetains))
  {
    match w.capturer
    case Targeting(uid, seen) => FlightFrame(w, StepTarget(w, uid, seen, facts));
    case Creating(uid, source) => FlightFrame(w, StepCreate(w, uid, source, classRetains));
    case _ => FlightFrame(w, StepCapture(w, facts, classRetains));
  }

  lemma ClusterFlight(w: World, ev: Event)
    requires FlightInv(w)
    ensures FlightInv(StepCluster(w, ev))
  {
    match ev
    case OwnerGc(a) => FlightFrame(w, StepOwnerGc(w, a));
    case _ => FlightFrame(w, StepCluster(w, ev));
  }

  lemma FlightKept(w: World, ev: Event)
    requires Inv(w) && FlightInv(w)
    ensures FlightInv(Next(w, ev))
  {
    match ev
    case ImportStart =>
    case UploadFinishes =>
    case ImportStep(read) => ImportFlight(w, read);
    case ImportCrash =>
    case CaptureStart(targetOk) => FlightFrame(w, StepCaptureStart(w, targetOk));
    case CaptureStep(facts, classRetains) => CaptureFlight(w, facts, classRetains);
    case CaptureCrash =>
    case CollectStart => FlightFrame(w, StepCollectStart(w));
    case CollectStep(read) => FlightFrame(w, StepCollect(w, read));
    case CollectCrash =>
    case _ => ClusterFlight(w, ev);
  }

  lemma {:induction false} FlightOver(w: World, evs: seq<Event>)
    requires Initial(w)
    ensures FlightInv(Run(w, evs))
  {
    if evs != [] {
      FlightOver(w, evs[..|evs| - 1]);
      RunKeeps(w, evs[..|evs| - 1]);
      FlightKept(Run(w, evs[..|evs| - 1]), evs[|evs| - 1]);
    }
  }

  // ---- every capture is one of the upload ----

  predicate IsUpload(w: World, v: Artifact) {
    w.uploadedTo == Some(v.source) && v.content.Present?
  }

  // All contents of a living import, and the one being made, capture the volume the upload went into.
  predicate SourceInv(w: World) {
    w.importAlive ==>
      && (forall a, i | a in w.history && 0 <= i < |w.history[a]| :: IsUpload(w, w.history[a][i]))
      && (w.capturer.Creating? ==> w.uploadedTo == Some(w.capturer.source))
  }

  lemma SourceFrame(w: World, w': World)
    requires SourceInv(w)
    requires w'.importAlive ==> w.importAlive
    requires w'.history == w.history && (w.uploadedTo.Some? ==> w'.uploadedTo == w.uploadedTo)
    requires w'.capturer.Creating? ==> w'.capturer == w.capturer
    ensures SourceInv(w')
  {}

  lemma PutSource(w: World, a: nat, v: Artifact)
    requires SourceInv(w) && Exists(w, a) && v.source == Last(w, a).source
    requires Last(w, a).content.Present? ==> v.content.Present?
    ensures SourceInv(Put(w, a, v))
  {
    var w' := Put(w, a, v);
    if w.importAlive {
      forall b, i | b in w'.history && 0 <= i < |w'.history[b]|
        ensures IsUpload(w', w'.history[b][i])
      {
        if b == a && i == |w.history[a]| {
          assert IsUpload(w, w.history[a][i - 1]);
        } else {
          assert IsUpload(w, w.history[b][i]);
        }
      }
    }
  }

  lemma ImportSource(w: World, read: nat)
    requires SourceInv(w)
    ensures SourceInv(StepImport(w, read))
  {
    match w.importer
    case AtPinPatch(k, a) =>
      if Exists(w, a) {
        PutSource(w, a, Last(w, a).(retain := true));
      }
    case AtOwnerPatch(k, a, version) =>
      if Exists(w, a) {
        PutSource(w, a, Last(w, a).(owners := WithOwner(Last(w, a).owners, ImportKeeper(k))));
      }
    case AtRequest(k) => SourceFrame(w, StepRequest(w, k));
    case AtPin(k, a) => SourceFrame(w, StepPin(w, k, a, read));
    case AtOwner(k, a) => SourceFrame(w, StepOwner(w, k, a, read));
    case AtKeeper => SourceFrame(w, StepKeeper(w));
    case _ => SourceFrame(w, StepImport(w, read));
  }

  /** A content that is still to be made belongs to an import that has released nothing. */
  lemma UnmadeMeansUnreleased(w: World, uid: nat)
    requires Inv(w) && OneContent(w) && w.importAlive
    requires w.request.Some? && w.request.value.uid == uid && !Exists(w, uid)
    ensures w.released == {}
  {
    assert forall a | a in w.released :: a in Relied(w);
    assert forall a | a in w.released :: Safe(w, a);
  }

  lemma MadeIsPresent(w: World, uid: nat)
    requires SourceInv(w) && w.importAlive && Exists(w, uid)
    ensures ContentOf(w, uid).Present?
  {
    assert IsUpload(w, w.history[uid][|w.history[uid]| - 1]);
  }

  lemma TargetSource(w: World, uid: nat, seen: CaptureStatus, facts: Facts)
    requires Inv(w) && OneContent(w) && ScratchInv(w) && SourceInv(w) && w.capturer == Targeting(uid, seen)
    ensures SourceInv(StepTarget(w, uid, seen, facts))
  {
    var w' := StepTarget(w, uid, seen, facts);
    if w.importAlive {
      TargetOutcomes(Met(w, facts), ContentOf(w, uid));
      if Exists(w, uid) {
        MadeIsPresent(w, uid);
      } else {
        UnmadeMeansUnreleased(w, uid);
      }
    }
  }

  lemma CreateSource(w: World, uid: nat, source: nat, classRetains: bool)
    requires SourceInv(w) && w.capturer == Creating(uid, source)
    ensures SourceInv(StepCreate(w, uid, source, classRetains))
  {
    var w' := StepCreate(w, uid, source, classRetains);
    if w.importAlive {
      assert forall a | a in w.history && a != uid :: w'.history[a] == w.history[a];
      forall i | uid in w'.history && 0 <= i < |w'.history[uid]| ensures IsUpload(w', w'.history[uid][i]) {
        assert uid in w.history && i < |w.history[uid]| ==> IsUpload(w, w.history[uid][i]);
      }
    }
  }

  lemma CaptureSource(w: World, facts: Facts, classRetains: bool)
    requires Inv(w) && OneContent(w) && ScratchInv(w) && SourceInv(w)
    ensures SourceInv(StepCapture(w, facts, classRetains))
  {
    match w.capturer
    case Targeting(uid, seen) => TargetSource(w, uid, seen, facts);
    case Creating(uid, source) => CreateSource(w, uid, source, classRetains);
    case _ => SourceFrame(w, StepCapture(w, facts, classRetains));
  }

  lemma ClusterSource(w: World, ev: Event)
    requires SourceInv(w)
    ensures SourceInv(StepCluster(w, ev))
  {
    match ev
    case OwnerGc(a) =>
      if Exists(w, a) {
        PutSource(w, a, Last(w, a).(owners := LiveOwners(Last(w, a).owners, AliveOwners(w, Last(w, a).owners))));
      }
    case Report(a, csiError, readyToUse) =>
      if Exists(w, a) {
        PutSource(w, a, Last(w, a).(content := Present(csiError, readyToUse)));
      }
    case OtherAdopts(a, id) =>
      if Exists(w, a) {
        PutSource(w, a, Last(w, a).(owners := WithOwner(Last(w, a).owners, Other(id))));
      }
    case _ => SourceFrame(w, StepCluster(w, ev));
  }

  lemma StartSource(w: World, targetOk: bool)
    requires SourceInv(w)
    ensures SourceInv(StepImportStart(w)) && SourceInv(StepUploadFinishes(w))
    ensures SourceInv(StepCaptureStart(w, targetOk)) && SourceInv(StepCollectStart(w))
  {
    SourceFrame(w, StepImportStart(w));
    SourceFrame(w, StepUploadFinishes(w));
    SourceFrame(w, StepCaptureStart(w, targetOk));
    SourceFrame(w, StepCollectStart(w));
  }

  lemma CrashSource(w: World, read: nat)
    requires SourceInv(w)
    ensures SourceInv(Next(w, ImportCrash)) && SourceInv(Next(w, CaptureCrash)) && SourceInv(Next(w, CollectCrash))
    ensures SourceInv(StepCollect(w, read))
  {
    SourceFrame(w, StepCollect(w, read));
  }

  lemma SourceKept(w: World, ev: Event)
    requires Inv(w) && OneContent(w) && ScratchInv(w) && SourceInv(w)
    ensures SourceInv(Next(w, ev))
  {
    match ev
    case ImportStart => StartSource(w, true);
    case UploadFinishes => StartSource(w, true);
    case CaptureStart(targetOk) => StartSource(w, targetOk);
    case CollectStart => StartSource(w, true);
    case ImportStep(read) => ImportSource(w, read);
    case CaptureStep(facts, classRetains) => CaptureSource(w, facts, classRetains);
    case CollectStep(read) => CrashSource(w, read);
    case ImportCrash => CrashSource(w, 0);
    case CaptureCrash => CrashSource(w, 0);
    case CollectCrash => CrashSource(w, 0);
    case _ => ClusterSource(w, ev);
  }

  // ---- over whole runs ----

  predicate KeepsRequestOver(w: World, evs: seq<Event>) {
    forall i | 0 <= i < |evs| :: KeepsRequest(Run(w, evs[..i]), evs[i])
  }

  lemma KeptBefore(w: World, evs: seq<Event>)
    requires KeepsRequestOver(w, evs) && evs != []
    ensures KeepsRequestOver(w, evs[..|evs| - 1])
    ensures KeepsRequest(Run(w, evs[..|evs| - 1]), evs[|evs| - 1])
  {
    var n := |evs| - 1;
    forall i | 0 <= i < n ensures KeepsRequest(Run(w, evs[..n][..i]), evs[..n][i]) {
      assert evs[..n][..i] == evs[..i];
      assert KeepsRequest(Run(w, evs[..i]), evs[i]);
    }
  }

  lemma {:induction false} OneContentOver(w: World, evs: seq<Event>)
    requires Initial(w) && KeepsRequestOver(w, evs)
    ensures OneContent(Run(w, evs)) && SourceInv(Run(w, evs))
  {
    if evs != [] {
      KeptBefore(w, evs);
      var n := |evs| - 1;
      OneContentOver(w, evs[..n]);
      RunKeeps(w, evs[..n]);
      ScratchOver(w, evs[..n]);
      OneContentKept(Run(w, evs[..n]), evs[n]);
      SourceKept(Run(w, evs[..n]), evs[n]);
    }
  }

  /** As long as no request is deleted that an unpublished import relies on, the import relies on one content only. */
  lemma OneArtifact(w: World, evs: seq<Event>)
    requires Initial(w) && KeepsRequestOver(w, evs)
    ensures var r := Run(w, evs); r.importAlive ==> forall a, b | a in Relied(r) && b in Relied(r) :: a == b
  {
    OneContentOver(w, evs);
  }

  /** Under the same condition what the import released or published captures the volume the upload went into. */
  lemma PublishedIsUpload(w: World, evs: seq<Event>, a: nat)
    requires Initial(w) && KeepsRequestOver(w, evs)
    requires var r := Run(w, evs); r.importAlive && (a in r.released || r.published == Some(a))
    ensures var r := Run(w, evs); Exists(r, a) && r.uploadedTo == Some(Last(r, a).source)
  {
    OneContentOver(w, evs);
    RunKeeps(w, evs);
    var r := Run(w, evs);
    assert Safe(r, a);
    assert IsUpload(r, r.history[a][|r.history[a]| - 1]);
  }
}
