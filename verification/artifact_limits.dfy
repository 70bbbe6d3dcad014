// What becomes of an import whose capture request is deleted while the import relies on its content and has not
// published: some run makes it rely on a second content, captured from a scratch volume that got no upload.
module ArtifactLimits {
  import opened Options
  import opened Lifecycle
  import opened CaptureRequest
  import opened ArtifactMachine
  import opened ArtifactTheorems
  import opened ArtifactUniqueness

  // ---- runs ----

  lemma {:induction false} RunConcat(w: World, a: seq<Event>, b: seq<Event>)
    ensures Run(w, a + b) == Run(Run(w, a), b)
  {
    if b == [] {
      assert a + b == a;
    } else {
      RunConcat(w, a, b[..|b| - 1]);
      assert (a + b)[..|a + b| - 1] == a + b[..|b| - 1];
    }
  }

  lemma RunAppend(w: World, evs: seq<Event>, ev: Event)
    ensures Run(w, evs + [ev]) == Next(Run(w, evs), ev)
  {
    assert (evs + [ev])[..|evs|] == evs;
  }

  lemma RunFirst(w: World, ev: Event, rest: seq<Event>)
    ensures Run(w, [ev] + rest) == Run(Next(w, ev), rest)
  {
    RunConcat(w, [ev], rest);
    assert [ev][..0] == [];
    assert Run(w, [ev]) == Next(Run(w, []), ev);
  }

  lemma {:induction false} InvOver(w: World, evs: seq<Event>)
    requires Inv(w)
    ensures Inv(Run(w, evs))
  {
    if evs != [] {
      InvOver(w, evs[..|evs| - 1]);
      NextKeeps(Run(w, evs[..|evs| - 1]), evs[|evs| - 1]);
    }
  }

  // ---- without its request the import still releases what it was busy with ----

  // A living, unpublished import without a request.
  predicate Orphaned(w: World) {
    && w.importAlive && w.published.None? && w.request.None?
    && w.capturer == CaptureRests && w.collector == CollectorRests
  }

  predicate Stranded(w: World, a: nat) {
    Inv(w) && ScratchInv(w) && Orphaned(w) && w.importer == ImportRests && a in w.released
  }

  lemma Strands(w: World, ev: Event, rest: seq<Event>, a: nat)
    requires Stranded(Run(Next(w, ev), rest), a)
    ensures Stranded(Run(w, [ev] + rest), a)
  {
    RunFirst(w, ev, rest);
  }

  lemma Kept(w: World, ev: Event)
    requires Inv(w) && ScratchInv(w)
    ensures Inv(Next(w, ev)) && ScratchInv(Next(w, ev))
  {
    NextKeeps(w, ev);
    ScratchKept(w, ev);
  }

  lemma FromReleased(w: World, a: nat) returns (evs: seq<Event>)
    requires Inv(w) && ScratchInv(w) && Orphaned(w) && a in w.released
    ensures Stranded(Run(w, evs), a)
  {
    Kept(w, ImportCrash);
    assert Run(Next(w, ImportCrash), []) == Next(w, ImportCrash);
    Strands(w, ImportCrash, [], a);
    evs := [ImportCrash] + [];
  }

  lemma FromScratch(w: World, k: nat, a: nat) returns (evs: seq<Event>)
    requires Inv(w) && ScratchInv(w) && Orphaned(w) && w.importer == AtScratch(k, a)
    ensures Stranded(Run(w, evs), a)
  {
    Kept(w, ImportStep(0));
    var rest := FromReleased(Next(w, ImportStep(0)), a);
    Strands(w, ImportStep(0), rest, a);
    evs := [ImportStep(0)] + rest;
  }

  lemma FromOwnerPatch(w: World, k: nat, a: nat, version: nat) returns (evs: seq<Event>)
    requires Inv(w) && ScratchInv(w) && Orphaned(w) && Exists(w, a)
    requires w.importer == AtOwnerPatch(k, a, version) && version == |w.history[a]| - 1
    ensures Stranded(Run(w, evs), a)
  {
    Kept(w, ImportStep(0));
    assert Next(w, ImportStep(0)) == StepOwnerPatch(w, k, a, version);
    var rest := FromScratch(Next(w, ImportStep(0)), k, a);
    Strands(w, ImportStep(0), rest, a);
    evs := [ImportStep(0)] + rest;
  }

  lemma FromOwner(w: World, k: nat, a: nat) returns (evs: seq<Event>)
    requires Inv(w) && ScratchInv(w) && Orphaned(w) && Exists(w, a) && w.importer == AtOwner(k, a)
    ensures Stranded(Run(w, evs), a)
  {
    var last := |w.history[a]| - 1;
    var w1 := Next(w, ImportStep(last));
    assert w1 == StepOwner(w, k, a, last) == w.(importer := w1.importer);
    Kept(w, ImportStep(last));
    var rest;
    if w1.importer.AtScratch? {
      rest := FromScratch(w1, k, a);
    } else {
      rest := FromOwnerPatch(w1, k, a, last);
    }
    Strands(w, ImportStep(last), rest, a);
    evs := [ImportStep(last)] + rest;
  }

  lemma FromStaleOwnerPatch(w: World, k: nat, a: nat, version: nat) returns (evs: seq<Event>)
    requires Inv(w) && ScratchInv(w) && Orphaned(w) && Exists(w, a)
    requires w.importer == AtOwnerPatch(k, a, version) && version != |w.history[a]| - 1
    ensures Stranded(Run(w, evs), a)
  {
    Kept(w, ImportStep(0));
    assert Next(w, ImportStep(0)) == w.(importer := AtOwner(k, a));
    var rest := FromOwner(Next(w, ImportStep(0)), k, a);
    Strands(w, ImportStep(0), rest, a);
    evs := [ImportStep(0)] + rest;
  }

  lemma FromPinPatch(w: World, k: nat, a: nat) returns (evs: seq<Event>)
    requires Inv(w) && ScratchInv(w) && Orphaned(w) && Exists(w, a) && w.importer == AtPinPatch(k, a)
    ensures Stranded(Run(w, evs), a)
  {
    Kept(w, ImportStep(0));
    assert Next(w, ImportStep(0)) == StepPinPatch(w, k, a);
    var rest := FromOwner(Next(w, ImportStep(0)), k, a);
    Strands(w, ImportStep(0), rest, a);
    evs := [ImportStep(0)] + rest;
  }

  lemma FromPin(w: World, k: nat, a: nat) returns (evs: seq<Event>)
    requires Inv(w) && ScratchInv(w) && Orphaned(w) && Exists(w, a) && w.importer == AtPin(k, a)
    ensures Stranded(Run(w, evs), a)
  {
    var last := |w.history[a]| - 1;
    var w1 := Next(w, ImportStep(last));
    assert w1 == StepPin(w, k, a, last) == w.(importer := w1.importer);
    Kept(w, ImportStep(last));
    var rest;
    if w1.importer.AtOwner? {
      rest := FromOwner(w1, k, a);
    } else {
      rest := FromPinPatch(w1, k, a);
    }
    Strands(w, ImportStep(last), rest, a);
    evs := [ImportStep(last)] + rest;
  }

  // The state just before the collector deletes a request the import relies on.
  predicate AtDeletion(w: World) {
    && Inv(w) && OneContent(w) && ScratchInv(w) && FlightInv(w)
    && w.importAlive && w.published.None? && Relied(w) != {} && w.collector == DeleteRequest
  }

  /** Until the deletion what the import is busy with exists. */
  lemma BusyWithExisting(w: World)
    requires AtDeletion(w) && InFlight(w.importer)
    ensures Exists(w, w.importer.a) && w.capturer == CaptureRests
  {
    assert w.importer.a in Relied(w);
    assert Anchored(w, w.request.value.uid);
  }

  lemma FromFlight(w: World) returns (evs: seq<Event>)
    requires Inv(w) && ScratchInv(w) && FlightInv(w) && Orphaned(w)
    requires InFlight(w.importer) && Exists(w, w.importer.a)
    ensures Stranded(Run(w, evs), w.importer.a)
  {
    match w.importer
    case AtPin(k, a) => evs := FromPin(w, k, a);
    case AtPinPatch(k, a) => evs := FromPinPatch(w, k, a);
    case AtOwner(k, a) => evs := FromOwner(w, k, a);
    case AtOwnerPatch(k, a, version) =>
      if version == |w.history[a]| - 1 {
        evs := FromOwnerPatch(w, k, a, version);
      } else {
        evs := FromStaleOwnerPatch(w, k, a, version);
      }
    case AtScratch(k, a) => evs := FromScratch(w, k, a);
    case AtPublish(k, a) => evs := FromReleased(w, a);
  }

  lemma FromDeletion(w: World, read: nat) returns (evs: seq<Event>, a: nat)
    requires AtDeletion(w)
    ensures Stranded(Run(Next(w, CollectStep(read)), evs), a)
  {
    var w1 := Next(w, CollectStep(read));
    assert w1 == w.(request := None, collector := CollectorRests);
    Kept(w, CollectStep(read));
    assert Orphaned(w1);
    if w.released != {} {
      a :| a in w.released;
      evs := FromReleased(w1, a);
    } else {
      assert InFlight(w.importer);
      BusyWithExisting(w);
      a := w.importer.a;
      evs := FromFlight(w1);
    }
  }

  // ---- a new request is captured and published ----

  const ALL_FOUND := Facts(Found, true, Found, true, true, Found, true, Found, true, false)

  function Contents(uid: nat, readyToUse: bool, source: nat): Artifact {
    Artifact([Retainer(uid)], true, Present(false, readyToUse), source)
  }

  predicate AllRest(w: World) {
    w.importer == ImportRests && w.capturer == CaptureRests && w.collector == CollectorRests
  }

  // A request just created for an import that has its keeper and a scratch volume.
  predicate Requested(w: World, uid: nat) {
    && AllRest(w) && w.importAlive && w.keeper.Some? && w.published.None? && w.scratch.Some? && w.uploadedTo.Some?
    && w.request == Some(Request(uid, NEW_STATUS)) && uid !in w.history && uid !in w.live
  }

  lemma AskRun(w: World, a: nat) returns (evs: seq<Event>)
    requires Stranded(w, a)
    ensures var r := Run(w, evs);
            && r.request.Some? && Requested(r, r.request.value.uid) && Inv(r) && ScratchInv(r)
            && r.released == w.released && r.request.value.uid !in r.released
  {
    assert Safe(w, a) && w.uploadedTo.Some?;
    var k := w.keeper.value;
    var w1 := Next(w, ImportStart);
    Kept(w, ImportStart);
    assert w1 == w.(scratch := w1.scratch, nextUid := w1.nextUid, importer := AtKeeper) && w1.scratch.Some?;
    var w2 := Next(w1, ImportStep(0));
    Kept(w1, ImportStep(0));
    assert w2 == w1.(importer := AtRequest(k));
    var w3 := Next(w2, ImportStep(0));
    Kept(w2, ImportStep(0));
    assert w3 == w2.(request := Some(Request(w2.nextUid, NEW_STATUS)), nextUid := w2.nextUid + 1, importer := ImportRests);
    assert forall b | b in w.released :: Safe(w, b);
    evs := [ImportStart, ImportStep(0), ImportStep(0)];
    assert evs[..2] == [ImportStart, ImportStep(0)] && evs[..2][..1] == [ImportStart];
    assert Run(w, evs[..2][..1]) == w1 by { assert [ImportStart][..0] == []; }
    assert Run(w, evs[..2]) == w2;
  }

  function AfterCreate(w: World, uid: nat): World
    requires w.scratch.Some?
  {
    w.(retainers := w.retainers + {uid}, history := w.history[uid := [Contents(uid, false, w.scratch.value)]],
       live := w.live + {uid}, request := Some(Request(uid, MarkedPending(NEW_STATUS))))
  }

  /** First reconcile of the request: retainer, content, pending. */
  lemma CreateRun(w: World, uid: nat) returns (evs: seq<Event>)
    requires Requested(w, uid)
    ensures Run(w, evs) == AfterCreate(w, uid)
  {
    evs := [];
    RunAppend(w, evs, CaptureStart(true));
    evs := evs + [CaptureStart(true)];
    assert Run(w, evs) == w.(capturer := EnsuringRetainer(uid, NEW_STATUS));
    RunAppend(w, evs, CaptureStep(ALL_FOUND, true));
    evs := evs + [CaptureStep(ALL_FOUND, true)];
    var w1 := w.(retainers := w.retainers + {uid});
    assert Run(w, evs) == w1.(capturer := Targeting(uid, NEW_STATUS));
    RunAppend(w, evs, CaptureStep(ALL_FOUND, true));
    evs := evs + [CaptureStep(ALL_FOUND, true)];
    assert Run(w, evs) == w1.(capturer := Creating(uid, w.scratch.value));
    RunAppend(w, evs, CaptureStep(ALL_FOUND, true));
    evs := evs + [CaptureStep(ALL_FOUND, true)];
    var v := Contents(uid, false, w.scratch.value);
    assert [] + [v] == [v];
    assert Run(w, evs) == AfterCreate(w, uid).(request := w.request, capturer := MarkingPending(uid));
    RunAppend(w, evs, CaptureStep(ALL_FOUND, true));
    evs := evs + [CaptureStep(ALL_FOUND, true)];
  }

  function AfterCapture(w: World, uid: nat): World
    requires w.scratch.Some?
  {
    var source := w.scratch.value;
    w.(retainers := w.retainers + {uid},
       history := w.history[uid := [Contents(uid, false, source), Contents(uid, true, source)]], live := w.live + {uid},
       request := Some(Request(uid, CaptureStatus(Some(Verdict(True, RCompleted)), Some(uid), Some(w.clock)))))
  }

  // The content is ready and the request still pending.
  function AfterReport(w: World, uid: nat): World
    requires w.scratch.Some?
  {
    AfterCapture(w, uid).(request := Some(Request(uid, MarkedPending(NEW_STATUS))))
  }

  lemma ReportRun(w: World, uid: nat) returns (evs: seq<Event>)
    requires Requested(w, uid)
    ensures Run(w, evs) == AfterReport(w, uid)
  {
    evs := CreateRun(w, uid);
    RunAppend(w, evs, Report(uid, false, true));
    evs := evs + [Report(uid, false, true)];
    var raw, ready := Contents(uid, false, w.scratch.value), Contents(uid, true, w.scratch.value);
    assert [raw] + [ready] == [raw, ready];
    var made := AfterCreate(w, uid);
    assert Last(made, uid) == raw;
    assert Run(w, evs) == Put(made, uid, ready);
    assert made.live + {uid} == made.live;
  }

  /** The second reconcile finds the content ready and completes the request. */
  lemma FinishRun(w: World, uid: nat) returns (evs: seq<Event>)
    requires Requested(w, uid)
    ensures Run(AfterReport(w, uid), evs) == AfterCapture(w, uid)
  {
    var w1, pending := AfterReport(w, uid), MarkedPending(NEW_STATUS);
    evs := [];
    RunAppend(w1, evs, CaptureStart(true));
    evs := evs + [CaptureStart(true)];
    assert Run(w1, evs) == w1.(capturer := EnsuringRetainer(uid, pending));
    RunAppend(w1, evs, CaptureStep(ALL_FOUND, true));
    evs := evs + [CaptureStep(ALL_FOUND, true)];
    assert w1.retainers + {uid} == w1.retainers;
    assert Run(w1, evs) == w1.(capturer := Targeting(uid, pending));
    RunAppend(w1, evs, CaptureStep(ALL_FOUND, true));
    evs := evs + [CaptureStep(ALL_FOUND, true)];
    assert ContentOf(w1, uid) == Present(false, true);
    assert Run(w1, evs) == w1.(capturer := Finishing(uid, Finalized(pending, Some(uid), Verdict(True, RCompleted), w.clock)));
    RunAppend(w1, evs, CaptureStep(ALL_FOUND, true));
    evs := evs + [CaptureStep(ALL_FOUND, true)];
  }

  /** The snapshot becomes ready and the second reconcile completes the request. */
  lemma CaptureRun(w: World, uid: nat) returns (evs: seq<Event>)
    requires Requested(w, uid)
    ensures Run(w, evs) == AfterCapture(w, uid)
  {
    var report := ReportRun(w, uid);
    var finish := FinishRun(w, uid);
    RunConcat(w, report, finish);
    evs := report + finish;
  }

  /** The next reconcile of the import finds the request ready and takes up its content. */
  lemma TakeUpRun(w: World, uid: nat) returns (evs: seq<Event>)
    requires Requested(w, uid)
    ensures Run(AfterCapture(w, uid), evs) == AfterCapture(w, uid).(importer := AtPin(w.keeper.value, uid))
  {
    var w0, k := AfterCapture(w, uid), w.keeper.value;
    evs := [];
    RunAppend(w0, evs, ImportStart);
    evs := evs + [ImportStart];
    assert Run(w0, evs) == w0.(importer := AtKeeper);
    RunAppend(w0, evs, ImportStep(0));
    evs := evs + [ImportStep(0)];
    assert Run(w0, evs) == w0.(importer := AtRequest(k));
    RunAppend(w0, evs, ImportStep(0));
    evs := evs + [ImportStep(0)];
  }

  function AfterPublish(w: World, uid: nat): World
    requires w.keeper.Some? && uid in w.history && |w.history[uid]| == 2
  {
    var v := w.history[uid][1];
    w.(history := w.history[uid := w.history[uid] + [v.(owners := WithOwner(v.owners, ImportKeeper(w.keeper.value)))]],
       live := w.live + {uid}, scratch := None, released := w.released + {uid}, published := Some(uid))
  }

  /** The import pins, owns, deletes its scratch PVC and publishes. */
  lemma PublishRun(w: World, uid: nat) returns (evs: seq<Event>)
    requires Requested(w, uid)
    ensures Run(AfterCapture(w, uid), evs) == AfterPublish(AfterCapture(w, uid), uid)
  {
    var w0, k := AfterCapture(w, uid), w.keeper.value;
    evs := TakeUpRun(w, uid);
    RunAppend(w0, evs, ImportStep(1));
    evs := evs + [ImportStep(1)];
    assert Run(w0, evs) == w0.(importer := AtOwner(k, uid));
    RunAppend(w0, evs, ImportStep(1));
    evs := evs + [ImportStep(1)];
    assert Run(w0, evs) == w0.(importer := AtOwnerPatch(k, uid, 1));
    RunAppend(w0, evs, ImportStep(0));
    evs := evs + [ImportStep(0)];
    var w1 := AfterPublish(w0, uid);
    assert Run(w0, evs) ==
           w1.(released := w0.released, scratch := w0.scratch, published := None, importer := AtScratch(k, uid));
    RunAppend(w0, evs, ImportStep(0));
    evs := evs + [ImportStep(0)];
    assert Run(w0, evs) == w1.(published := None, importer := AtPublish(k, uid));
    RunAppend(w0, evs, ImportStep(0));
    evs := evs + [ImportStep(0)];
  }

  // ---- two contents ----

  // The import has published a content, has released another, both are there for good, and the published one is no
  // capture of the volume the upload went into.
  predicate PublishedWrong(w: World, a: nat) {
    && w.importAlive && w.published.Some? && a != w.published.value && {a, w.published.value} <= w.released
    && Safe(w, a) && Safe(w, w.published.value)
    && w.uploadedTo != Some(Last(w, w.published.value).source)
  }

  lemma SecondRun(w: World, a: nat, uid: nat) returns (evs: seq<Event>)
    requires Requested(w, uid) && Inv(w) && ScratchInv(w) && a in w.released && uid !in w.released
    ensures PublishedWrong(Run(w, evs), a)
  {
    var capture := CaptureRun(w, uid);
    var publish := PublishRun(w, uid);
    RunConcat(w, capture, publish);
    evs := capture + publish;
    var r := Run(w, evs);
    assert Last(r, uid).source == w.scratch.value;
    InvOver(w, evs);
    assert Safe(r, a) && Safe(r, uid);
  }

  lemma StrandedLeadsToTwo(w: World, a: nat) returns (evs: seq<Event>)
    requires Stranded(w, a)
    ensures PublishedWrong(Run(w, evs), a)
  {
    var ask := AskRun(w, a);
    var r := Run(w, ask);
    var second := SecondRun(r, a, r.request.value.uid);
    RunConcat(w, ask, second);
    evs := ask + second;
  }

  lemma DeletionLeadsToTwoFrom(w: World, read: nat) returns (evs: seq<Event>, a: nat)
    requires AtDeletion(w)
    ensures PublishedWrong(Run(w, [CollectStep(read)] + evs), a)
  {
    var first;
    var w1 := Next(w, CollectStep(read));
    first, a := FromDeletion(w, read);
    var second := StrandedLeadsToTwo(Run(w1, first), a);
    RunConcat(w1, first, second);
    evs := first + second;
    RunFirst(w, CollectStep(read), evs);
  }

  /**
   * The converse of OneArtifact and PublishedIsUpload: from the first deletion of a request the import relies on, in
   * whatever run, some run publishes a second content, and that is no capture of the uploaded volume.
   */
  lemma DeletionLeadsToTwo(w: World, evs: seq<Event>, read: nat) returns (more: seq<Event>, a: nat)
    requires Initial(w) && KeepsRequestOver(w, evs) && !KeepsRequest(Run(w, evs), CollectStep(read))
    ensures PublishedWrong(Run(w, evs + ([CollectStep(read)] + more)), a)
  {
    RunKeeps(w, evs);
    OneContentOver(w, evs);
    ScratchOver(w, evs);
    FlightOver(w, evs);
    more, a := DeletionLeadsToTwoFrom(Run(w, evs), read);
    RunConcat(w, evs, [CollectStep(read)] + more);
  }

  // ---- the deletion does happen ----

  const NEW_IMPORT :=
    World(true, None, None, None, None, {}, {}, map[], {}, None, {}, ImportRests, CaptureRests, CollectorRests, 0, 0, 0)

  lemma RequestedRun() returns (evs: seq<Event>)
    ensures Run(NEW_IMPORT, evs) ==
            NEW_IMPORT.(scratch := Some(0), uploadedTo := Some(0), keeper := Some(1),
                        request := Some(Request(2, NEW_STATUS)), nextUid := 3)
  {
    evs := [];
    RunAppend(NEW_IMPORT, evs, ImportStart);
    evs := evs + [ImportStart];
    assert Run(NEW_IMPORT, evs) == NEW_IMPORT.(scratch := Some(0), nextUid := 1);
    RunAppend(NEW_IMPORT, evs, UploadFinishes);
    evs := evs + [UploadFinishes];
    var w1 := NEW_IMPORT.(scratch := Some(0), uploadedTo := Some(0), nextUid := 1);
    assert Run(NEW_IMPORT, evs) == w1;
    RunAppend(NEW_IMPORT, evs, ImportStart);
    evs := evs + [ImportStart];
    assert Run(NEW_IMPORT, evs) == w1.(importer := AtKeeper);
    RunAppend(NEW_IMPORT, evs, ImportStep(0));
    evs := evs + [ImportStep(0)];
    assert Run(NEW_IMPORT, evs) == w1.(keeper := Some(1), nextUid := 2, importer := AtRequest(1));
    RunAppend(NEW_IMPORT, evs, ImportStep(0));
    evs := evs + [ImportStep(0)];
  }

  /** With a short ttl the collector gets to the request while the import is about to pin its content. */
  lemma OverdueRun(w: World) returns (evs: seq<Event>)
    requires Requested(w, 2) && w.ttl == 0
    ensures var r := AfterCapture(w, 2).(importer := AtPin(w.keeper.value, 2));
            Run(w, evs) == r.(clock := w.clock + 1, collector := DeleteRequest)
  {
    var capture := CaptureRun(w, 2);
    var take := TakeUpRun(w, 2);
    RunConcat(w, capture, take);
    evs := capture + take;
    var r := AfterCapture(w, 2).(importer := AtPin(w.keeper.value, 2));
    RunAppend(w, evs, Tick);
    evs := evs + [Tick];
    var r1 := r.(clock := w.clock + 1);
    assert Run(w, evs) == r1;
    RunAppend(w, evs, CollectStart);
    evs := evs + [CollectStart];
    assert Run(w, evs) == r1.(collector := PreDelete(Some(2)));
    assert r1.history[2][0].owners != [];
    RunAppend(w, evs, CollectStep(0));
    evs := evs + [CollectStep(0)];
  }

  /** An import whose request is collected as it takes up the content ends with another content published. */
  lemma TwoContents() returns (evs: seq<Event>, a: nat)
    ensures Initial(NEW_IMPORT) && PublishedWrong(Run(NEW_IMPORT, evs), a)
  {
    var ask := RequestedRun();
    var overdue := OverdueRun(Run(NEW_IMPORT, ask));
    RunConcat(NEW_IMPORT, ask, overdue);
    var w := Run(NEW_IMPORT, ask + overdue);
    RunKeeps(NEW_IMPORT, ask + overdue);
    ScratchOver(NEW_IMPORT, ask + overdue);
    FlightOver(NEW_IMPORT, ask + overdue);
    assert 2 in Relied(w);
    var rest;
    rest, a := DeletionLeadsToTwoFrom(w, 0);
    evs := ask + overdue + ([CollectStep(0)] + rest);
    RunConcat(NEW_IMPORT, ask + overdue, [CollectStep(0)] + rest);
  }
}
