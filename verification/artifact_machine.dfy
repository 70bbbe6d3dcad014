// One DataImport, its capture request, the captured artifact and everyone who can make the artifact go away:
// the import controller (data_import_resource.go ensureDataArtifact, object_keeper.go, artifact.go, pvc.go),
// the request controller, the request collector (images/controller/internal/controllers/gc.go), Kubernetes
// owner collection and the ObjectKeeper controller.
module ArtifactMachine {
  import opened Options
  import opened Lifecycle
  import opened CaptureRequest

  // One version of a VolumeSnapshotContent; its owners are never empty when it is created. `source` is the scratch
  // volume whose handle it captures.
  datatype Artifact = Artifact(owners: seq<Owner>, retain: bool, content: Content, source: nat)

  datatype Request = Request(uid: nat, status: CaptureStatus)

  // ensureDataArtifact, one constructor per write or deciding read that is still ahead.
  datatype Importer =
    | ImportRests
    | AtKeeper
    | AtRequest(keeper: nat)
    | AtPin(keeper: nat, a: nat)
    | AtPinPatch(keeper: nat, a: nat)
    | AtOwner(keeper: nat, a: nat)
    | AtOwnerPatch(keeper: nat, a: nat, version: nat)
    | AtScratch(keeper: nat, a: nat)
    | AtPublish(keeper: nat, a: nat)

  // processSnapshotMode
  datatype Capturer =
    | CaptureRests
    | EnsuringRetainer(uid: nat, seen: CaptureStatus) // `seen`: the status in memory
    | Targeting(uid: nat, seen: CaptureStatus)
    | Creating(uid: nat, source: nat)
    | Finishing(uid: nat, status: CaptureStatus)
    | MarkingPending(uid: nat)

  // gc_reconciler.Reconcile with the request's PreDelete hook
  datatype Collector = CollectorRests | PreDelete(data: Option<nat>) | Reap(a: nat) | DeleteRequest

  datatype World = World(
    importAlive: bool,                  // the DataImport object exists
    scratch: Option<nat>,               // its scratch PVC, by the volume behind it
    uploadedTo: Option<nat>,            // the volume the finished upload went into
    keeper: Option<nat>,                // its ObjectKeeper, by UID
    request: Option<Request>,           // the request under this import's deterministic name
    retainers: set<nat>,                // retainer keepers, by the UID of the request they follow
    others: set<nat>,                   // every other object that may own the artifact
    history: map<nat, seq<Artifact>>,   // all versions of the content named after a request's UID
    live: set<nat>,                     // the contents that exist
    published: Option<nat>,             // status.data.artifactRef
    released: set<nat>,                 // contents the import relied on when it deleted a scratch PVC
    importer: Importer, capturer: Capturer, collector: Collector,
    nextUid: nat, clock: int, ttl: int)

  datatype Event =
    | Tick
    // the import controller
    | ImportStart
    | ImportStep(read: nat)             // reads of the content come from a cache: any version
    | ImportCrash
    | UploadFinishes
    // the request controller
    | CaptureStart(targetOk: bool)
    | CaptureStep(facts: Facts, classRetains: bool)
    | CaptureCrash
    // the collector
    | CollectStart
    | CollectStep(read: nat)
    | CollectCrash
    // Kubernetes, the ObjectKeeper controller, the snapshotter and third parties
    | ImportDeleted
    | RequestCascade
    | KeeperFollows
    | RetainerFollows(uid: nat)
    | OwnerGc(a: nat)
    | Report(a: nat, csiError: bool, readyToUse: bool)
    | OtherBorn(id: nat)
    | OtherGone(id: nat)
    | OtherAdopts(a: nat, id: nat)

  function Last(w: World, a: nat): Artifact
    requires a in w.history && w.history[a] != []
  {
    w.history[a][|w.history[a]| - 1]
  }

  // A write to a content object that exists: one more version.
  function Put(w: World, a: nat, v: Artifact): World {
    w.(history := w.history[a := (if a in w.history then w.history[a] else []) + [v]], live := w.live + {a})
  }

  predicate Exists(w: World, a: nat) {
    a in w.live && a in w.history && w.history[a] != []
  }

  // ---- the import controller ----

  /**
   * While the import has not recorded its artifact a reconcile ensures the scratch PVC, making a new one if it is gone,
   * and goes on to ensureDataArtifact once the upload has finished.
   */
  function StepImportStart(w: World): World {
    if w.importer != ImportRests || w.published.Some? then w
    else
      w.(scratch := if w.scratch.Some? then w.scratch else Some(w.nextUid),
         nextUid := if w.scratch.Some? then w.nextUid else w.nextUid + 1,
         importer := if w.uploadedTo.Some? then AtKeeper else ImportRests)
  }

  /** The pod reports Finished once; a later scratch PVC gets no upload. */
  function StepUploadFinishes(w: World): World {
    if w.uploadedTo.None? then w.(uploadedTo := w.scratch) else w
  }

  function StepKeeper(w: World): World {
    if w.keeper.Some? then w.(importer := AtRequest(w.keeper.value))
    else w.(keeper := Some(w.nextUid), importer := AtRequest(w.nextUid), nextUid := w.nextUid + 1)
  }

  function StepRequest(w: World, keeper: nat): World {
    match w.request
    case None =>
      w.(request := Some(Request(w.nextUid, NEW_STATUS)), nextUid := w.nextUid + 1, importer := ImportRests)
    case Some(r) =>
      if !ImportSeesFailed(r.status) && ImportSeesReady(r.status) && r.status.data.Some? then
        w.(importer := AtPin(keeper, r.status.data.value))
      else w.(importer := ImportRests)
  }

  /** pinArtifactRetain: skip when the copy read is pinned, else a plain merge patch of that one field. */
  function StepPin(w: World, keeper: nat, a: nat, read: nat): World {
    if a !in w.history || read >= |w.history[a]| then w.(importer := ImportRests)
    else if w.history[a][read].retain then w.(importer := AtOwner(keeper, a))
    else w.(importer := AtPinPatch(keeper, a))
  }

  function StepPinPatch(w: World, keeper: nat, a: nat): World {
    if Exists(w, a) then Put(w, a, Last(w, a).(retain := true)).(importer := AtOwner(keeper, a))
    else w.(importer := ImportRests)
  }

  /** appendOwnerRef: done when the copy read lists the keeper, else a patch guarded by the version read. */
  function StepOwner(w: World, keeper: nat, a: nat, read: nat): World {
    if a !in w.history || read >= |w.history[a]| then w.(importer := ImportRests)
    else if ImportKeeper(keeper) in w.history[a][read].owners then w.(importer := AtScratch(keeper, a))
    else w.(importer := AtOwnerPatch(keeper, a, read))
  }

  function StepOwnerPatch(w: World, keeper: nat, a: nat, version: nat): World {
    if !Exists(w, a) then w.(importer := ImportRests)
    else if version != |w.history[a]| - 1 then w.(importer := AtOwner(keeper, a))
    else
      var v := Last(w, a);
      Put(w, a, v.(owners := WithOwner(v.owners, ImportKeeper(keeper)))).(importer := AtScratch(keeper, a))
  }

  function StepImport(w: World, read: nat): World {
    match w.importer
    case ImportRests => w
    case AtKeeper => StepKeeper(w)
    case AtRequest(k) => StepRequest(w, k)
    case AtPin(k, a) => StepPin(w, k, a, read)
    case AtPinPatch(k, a) => StepPinPatch(w, k, a)
    case AtOwner(k, a) => StepOwner(w, k, a, read)
    case AtOwnerPatch(k, a, version) => StepOwnerPatch(w, k, a, version)
    case AtScratch(k, a) => w.(scratch := None, released := w.released + {a}, importer := AtPublish(k, a))
    case AtPublish(_, a) => w.(published := if w.importAlive then Some(a) else w.published, importer := ImportRests)
  }

  // ---- the request controller ----

  function StepCaptureStart(w: World, targetOk: bool): World {
    if w.capturer != CaptureRests || w.request.None? || IsTerminal(w.request.value.status) then w
    else
      var r := w.request.value;
      if targetOk then w.(capturer := EnsuringRetainer(r.uid, r.status))
      else w.(capturer := Finishing(r.uid, Finalized(r.status, r.status.data, Verdict(False, RInternalError), w.clock)))
  }

  function ContentOf(w: World, a: nat): Content {
    if Exists(w, a) then Last(w, a).content else Absent
  }

  // The target PVC is looked up by name; there is none to be found without a scratch PVC.
  function Met(w: World, facts: Facts): Facts {
    if facts.pvc == Found && w.scratch.None? then facts.(pvc := NotFound) else facts
  }

  function StepTarget(w: World, uid: nat, seen: CaptureStatus, facts: Facts): World {
    match SnapshotTarget(Met(w, facts), ContentOf(w, uid))
    case Retry => w.(capturer := CaptureRests)
    case Fails(reason) => w.(capturer := Finishing(uid, Finalized(seen, seen.data, Verdict(False, reason), w.clock)))
    case Create => w.(capturer := if w.scratch.Some? then Creating(uid, w.scratch.value) else CaptureRests)
    case Wait => w.(capturer := MarkingPending(uid))
    case Captured => w.(capturer := Finishing(uid, Finalized(seen, Some(uid), Verdict(True, RCompleted), w.clock)))
  }

  function StepCreate(w: World, uid: nat, source: nat, classRetains: bool): World {
    if Exists(w, uid) then w.(capturer := CaptureRests)
    else
      var v := Artifact([Retainer(uid)], classRetains, Present(false, false), source);
      Put(w, uid, v).(capturer := MarkingPending(uid))
  }

  /** finalizeVCR and patchVCRSnapshotPending write whatever request now has the name. */
  function StepCapture(w: World, facts: Facts, classRetains: bool): World {
    match w.capturer
    case CaptureRests => w
    case EnsuringRetainer(uid, seen) => w.(retainers := w.retainers + {uid}, capturer := Targeting(uid, seen))
    case Targeting(uid, seen) => StepTarget(w, uid, seen, facts)
    case Creating(uid, source) => StepCreate(w, uid, source, classRetains)
    case Finishing(_, status) =>
      if w.request.None? then w.(capturer := CaptureRests)
      else w.(request := Some(w.request.value.(status := status)), capturer := CaptureRests)
    case MarkingPending(_) =>
      if w.request.None? then w.(capturer := CaptureRests)
      else w.(request := Some(w.request.value.(status := MarkedPending(w.request.value.status))), capturer := CaptureRests)
  }

  // ---- the collector ----

  /** vcrGCManager.ShouldBeDeleted with agedOut */
  predicate IsReapable(s: CaptureStatus, ttl: int, now: int) {
    IsTerminal(s) && s.completion.Some? && now - s.completion.value > ttl
  }

  function StepCollectStart(w: World): World {
    if w.collector == CollectorRests && w.request.Some? && IsReapable(w.request.value.status, w.ttl, w.clock) then
      w.(collector := PreDelete(w.request.value.status.data))
    else w
  }

  /** cleanupVCRArtifacts deletes a content without owners, then the request goes whatever happened. */
  function StepCollect(w: World, read: nat): World {
    match w.collector
    case CollectorRests => w
    case PreDelete(data) =>
      if data.None? || data.value !in w.history || read >= |w.history[data.value]| then w.(collector := DeleteRequest)
      else if w.history[data.value][read].owners != [] then w.(collector := DeleteRequest)
      else w.(collector := Reap(data.value))
    case Reap(a) => w.(live := w.live - {a}, collector := DeleteRequest)
    case DeleteRequest => w.(request := None, collector := CollectorRests)
  }

  // ---- the cluster ----

  predicate OwnerAlive(w: World, o: Owner) {
    match o
    case Retainer(uid) => uid in w.retainers
    case ImportKeeper(uid) => w.keeper == Some(uid)
    case Other(id) => id in w.others
  }

  function AliveOwners(w: World, owners: seq<Owner>): set<Owner> {
    set o | o in owners && OwnerAlive(w, o)
  }

  /** Owner collection: delete when no owner is left, otherwise drop the entries of owners that are gone. */
  function StepOwnerGc(w: World, a: nat): World {
    if !Exists(w, a) then w
    else
      var v := Last(w, a);
      var kept := LiveOwners(v.owners, AliveOwners(w, v.owners));
      if v.owners == [] || kept == v.owners then w
      else if kept == [] then w.(live := w.live - {a})
      else Put(w, a, v.(owners := kept))
  }

  function StepCluster(w: World, ev: Event): World {
    match ev
    case ImportDeleted => w.(importAlive := false)
    case RequestCascade => if w.importAlive then w else w.(request := None)
    case KeeperFollows => if w.importAlive then w else w.(keeper := None)
    case RetainerFollows(uid) =>
      if w.request.Some? && w.request.value.uid == uid then w else w.(retainers := w.retainers - {uid})
    case OwnerGc(a) => StepOwnerGc(w, a)
    case Report(a, csiError, readyToUse) =>
      if Exists(w, a) then Put(w, a, Last(w, a).(content := Present(csiError, readyToUse))) else w
    case OtherBorn(id) => w.(others := w.others + {id})
    case OtherGone(id) => w.(others := w.others - {id})
    case OtherAdopts(a, id) =>
      if Exists(w, a) && id in w.others then
        Put(w, a, Last(w, a).(owners := WithOwner(Last(w, a).owners, Other(id))))
      else w
    case Tick => w.(clock := w.clock + 1)
    case _ => w
  }

  function Next(w: World, ev: Event): World {
    match ev
    case ImportStart => StepImportStart(w)
    case ImportStep(read) => StepImport(w, read)
    case ImportCrash => w.(importer := ImportRests)
    case UploadFinishes => StepUploadFinishes(w)
    case CaptureStart(targetOk) => StepCaptureStart(w, targetOk)
    case CaptureStep(facts, classRetains) => StepCapture(w, facts, classRetains)
    case CaptureCrash => w.(capturer := CaptureRests)
    case CollectStart => StepCollectStart(w)
    case CollectStep(read) => StepCollect(w, read)
    case CollectCrash => w.(collector := CollectorRests)
    case _ => StepCluster(w, ev)
  }

  function Run(w: World, evs: seq<Event>): World {
    if evs == [] then w else Next(Run(w, evs[..|evs| - 1]), evs[|evs| - 1])
  }

  predicate Initial(w: World) {
    && w.importAlive && w.scratch.None? && w.uploadedTo.None? && w.keeper.None? && w.request.None?
    && w.retainers == {} && w.history == map[] && w.live == {}
    && w.published.None? && w.released == {}
    && w.importer == ImportRests && w.capturer == CaptureRests && w.collector == CollectorRests
  }
}
