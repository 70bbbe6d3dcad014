// The status of a VolumeCaptureRequest and the decision of one Snapshot reconcile
// (images/controller/internal/controllers/volumecapturerequest_{controller,snapshot}.go, utils.go).
module CaptureRequest {
  import opened Options
  import opened Lifecycle

  // `ready` is the one Ready condition; `data` names the produced artifact.
  datatype CaptureStatus = CaptureStatus(ready: Option<Verdict>, data: Option<nat>, completion: Option<int>)

  const NEW_STATUS := CaptureStatus(None, None, None)

  /** isVolumeCaptureTerminal */
  predicate IsTerminal(s: CaptureStatus) {
    && s.ready.Some?
    && (s.ready.value.status == True || (s.ready.value.status == False && s.ready.value.reason != RTargetsPending))
  }

  /** volumeCaptureRequestReady and volumeCaptureRequestFailed: how a DataImport reads the same condition. */
  predicate ImportSeesReady(s: CaptureStatus) {
    s.ready == Some(Verdict(True, RCompleted))
  }

  predicate ImportSeesFailed(s: CaptureStatus) {
    s.ready.Some? && s.ready.value.status == False && s.ready.value.reason != RTargetsPending
  }

  /** What every request keeps: data and stamp follow the Ready condition. */
  predicate StatusOk(s: CaptureStatus) {
    && (s.data.Some? <==> s.ready == Some(Verdict(True, RCompleted)))
    && (s.completion.Some? <==> IsTerminal(s))
    && (s.ready.Some? && s.ready.value.status == True ==> s.ready.value.reason == RCompleted)
  }

  /** The two controllers' readings agree exactly where Ready=True always means Completed; they never both fire. */
  lemma ReadingsAgree(s: CaptureStatus)
    ensures !(ImportSeesReady(s) && ImportSeesFailed(s))
    ensures (ImportSeesReady(s) || ImportSeesFailed(s) <==> IsTerminal(s))
        <==> !(s.ready.Some? && s.ready.value.status == True && s.ready.value.reason != RCompleted)
    ensures StatusOk(s) ==> (ImportSeesReady(s) || ImportSeesFailed(s) <==> IsTerminal(s))
  {
    if s.ready.Some? {
      var v := s.ready.value;
      match v.status
      case True => assert IsTerminal(s);
      case False => assert IsTerminal(s) <==> v.reason != RTargetsPending;
      case Unknown => assert !IsTerminal(s);
    }
  }

  /** finalizeVCR on the in-memory status; `data` was set by the caller on success only. */
  function Finalized(s: CaptureStatus, data: Option<nat>, verdict: Verdict, now: int): CaptureStatus {
    CaptureStatus(Some(verdict), data, if s.completion.None? then Some(now) else s.completion)
  }

  /** patchVCRSnapshotPending on the stored status */
  function MarkedPending(s: CaptureStatus): CaptureStatus {
    s.(ready := Some(Verdict(False, RTargetsPending)), completion := None)
  }

  datatype Lookup = Found | NotFound | Forbidden | ApiError

  // What processSnapshotTarget learns about the volume on its way to the content object.
  datatype Facts = Facts(
    pvc: Lookup, bound: bool, pv: Lookup, csiHandle: bool,
    className: bool, storageClass: Lookup, annotated: bool,
    snapshotClass: Lookup, driverMatches: bool,
    contentUnreadable: bool)

  // The content object as the external snapshotter reports on it.
  datatype Content = Absent | Present(csiError: bool, readyToUse: bool)

  datatype TargetResult = Retry | Fails(reason: Reason) | Create | Wait | Captured

  /** processSnapshotTarget, check by check */
  function SnapshotTarget(f: Facts, content: Content): TargetResult {
    match f.pvc
    case NotFound => Fails(RNotFound)
    case Forbidden => Fails(RRBACDenied)
    case ApiError => Retry
    case Found =>
      if !f.bound then Fails(RInternalError)
      else if f.pv == NotFound then Fails(RNotFound)
      else if f.pv != Found then Retry
      else if !f.csiHandle || !f.className then Fails(RInternalError)
      else match f.storageClass
        case NotFound => Fails(RNotFound)
        case Forbidden => Fails(RRBACDenied)
        case ApiError => Retry
        case Found =>
          if !f.annotated then Fails(RNotFound)
          else match f.snapshotClass
            case NotFound => Fails(RNotFound)
            case Forbidden => Fails(RRBACDenied)
            case ApiError => Retry
            case Found =>
              if !f.driverMatches then Fails(RInternalError)
              else if f.contentUnreadable then Retry
              else match content
                case Absent => Create
                case Present(csiError, readyToUse) =>
                  if csiError then Wait else if readyToUse then Captured else Wait
  }

  predicate AllFound(f: Facts) {
    && f.pvc == Found && f.bound && f.pv == Found && f.csiHandle && f.className
    && f.storageClass == Found && f.annotated && f.snapshotClass == Found && f.driverMatches && !f.contentUnreadable
  }

  /** A CSI error is never terminal, and success needs every precondition and a ready, error-free content. */
  lemma TargetOutcomes(f: Facts, content: Content)
    ensures SnapshotTarget(f, content) == Captured <==> AllFound(f) && content == Present(false, true)
    ensures SnapshotTarget(f, content) == Create <==> AllFound(f) && content == Absent
    ensures AllFound(f) && content.Present? && content.csiError ==> SnapshotTarget(f, content) == Wait
    ensures SnapshotTarget(f, content).Fails? ==> !AllFound(f)
    ensures SnapshotTarget(f, content).Fails? ==> SnapshotTarget(f, content).reason != RTargetsPending
  {}

  // ---- the checks in their order ----

  // What one check finds: nothing in the way, a transient API error, or an obstacle for good.
  datatype Check = Passed | Transient | Obstacle(reason: Reason)

  function Looked(l: Lookup): Check {
    match l
    case Found => Passed
    case NotFound => Obstacle(RNotFound)
    case Forbidden => Obstacle(RRBACDenied)
    case ApiError => Transient
  }

  function Demanded(holds: bool, reason: Reason): Check {
    if holds then Passed else Obstacle(reason)
  }

  /** The checks of processSnapshotTarget, first to last. Only for the PV is a refused access transient. */
  function Checks(f: Facts): seq<Check> {
    [Looked(f.pvc),
     Demanded(f.bound, RInternalError),
     if f.pv == Forbidden then Transient else Looked(f.pv),
     Demanded(f.csiHandle, RInternalError),
     Demanded(f.className, RInternalError),
     Looked(f.storageClass),
     Demanded(f.annotated, RNotFound),
     Looked(f.snapshotClass),
     Demanded(f.driverMatches, RInternalError),
     if f.contentUnreadable then Transient else Passed]
  }

  predicate FirstNotPassed(checks: seq<Check>, i: nat) {
    i < |checks| && checks[i] != Passed && forall j | 0 <= j < i :: checks[j] == Passed
  }

  function ResultOf(c: Check): TargetResult {
    if c.Obstacle? then Fails(c.reason) else Retry
  }

  lemma AllPassed(f: Facts)
    ensures AllFound(f) <==> forall c | c in Checks(f) :: c == Passed
  {
    var checks := Checks(f);
    assert checks[0] in checks && checks[1] in checks && checks[2] in checks && checks[3] in checks && checks[4] in checks;
    assert checks[5] in checks && checks[6] in checks && checks[7] in checks && checks[8] in checks && checks[9] in checks;
  }

  /** The first check that is not passed decides: retry if it is transient, else fail for good with its reason. */
  lemma TargetExactly(f: Facts, content: Content)
    ensures forall i: nat | FirstNotPassed(Checks(f), i) :: SnapshotTarget(f, content) == ResultOf(Checks(f)[i])
    ensures SnapshotTarget(f, content) == Retry || SnapshotTarget(f, content).Fails? <==>
              exists i: nat :: FirstNotPassed(Checks(f), i)
    ensures SnapshotTarget(f, content) == Wait <==> AllFound(f) && content.Present? && content != Present(false, true)
  {
    var checks := Checks(f);
    forall i: nat | FirstNotPassed(checks, i) ensures SnapshotTarget(f, content) == ResultOf(checks[i]) {
      FirstDecides(f, content, i);
    }
    AllPassed(f);
    if !AllFound(f) {
      var k :| 0 <= k < |checks| && checks[k] != Passed;
      var i := SomeObstacle(checks, k);
    }
  }

  lemma FirstDecides(f: Facts, content: Content, i: nat)
    requires FirstNotPassed(Checks(f), i)
    ensures SnapshotTarget(f, content) == ResultOf(Checks(f)[i])
  {
    var checks := Checks(f);
    assert i > 0 ==> checks[0] == Passed;
    assert i > 1 ==> checks[1] == Passed;
    assert i > 2 ==> checks[2] == Passed;
    assert i > 3 ==> checks[3] == Passed;
    assert i > 4 ==> checks[4] == Passed;
    assert i > 5 ==> checks[5] == Passed;
    assert i > 6 ==> checks[6] == Passed;
    assert i > 7 ==> checks[7] == Passed;
    assert i > 8 ==> checks[8] == Passed;
  }

  lemma {:induction false} SomeObstacle(checks: seq<Check>, k: nat) returns (i: nat)
    requires k < |checks| && checks[k] != Passed
    ensures FirstNotPassed(checks, i)
  {
    i := k;
    if j: nat :| j < k && checks[j] != Passed {
      i := SomeObstacle(checks, j);
    }
  }

  /** The two writes of a reconcile keep the status well formed. */
  lemma WritesKeepStatus(s: CaptureStatus, verdict: Verdict, a: nat, now: int)
    requires StatusOk(s) && !IsTerminal(s)
    ensures StatusOk(MarkedPending(s)) && !IsTerminal(MarkedPending(s))
    ensures var done := Finalized(s, Some(a), Verdict(True, RCompleted), now); StatusOk(done) && IsTerminal(done)
    ensures verdict.status == False && verdict.reason != RTargetsPending ==>
              var failed := Finalized(s, s.data, verdict, now); StatusOk(failed) && IsTerminal(failed)
  {}

  // ---- owner references ----

  // The owners an artifact may have, by UID.
  datatype Owner = Retainer(request: nat) | ImportKeeper(uid: nat) | Other(uid: nat)

  /** The owner list after `desired` has been appended if absent. */
  function WithOwner(owners: seq<Owner>, desired: Owner): (r: seq<Owner>)
    ensures desired in r && owners <= r
    ensures forall o :: o in r <==> o in owners || o == desired
  {
    if desired in owners then owners else owners + [desired]
  }

  /** How often an owner is listed. */
  function Entries(owners: seq<Owner>, o: Owner): nat {
    multiset(owners)[o]
  }

  /** Repeating an append changes nothing, and an owner absent before is listed exactly once after. */
  lemma OneEntry(owners: seq<Owner>, o: Owner)
    ensures WithOwner(WithOwner(owners, o), o) == WithOwner(owners, o)
    ensures Entries(owners, o) <= 1 ==> Entries(WithOwner(owners, o), o) == 1
    ensures forall p :: p != o ==> Entries(WithOwner(owners, o), p) == Entries(owners, p)
  {
    if o !in owners {
      assert multiset(owners + [o]) == multiset(owners) + multiset{o};
    }
  }

  /** The owner search of appendOwnerRef and processDetachMode. */
  method AppendOwnerRef(owners: seq<Owner>, desired: Owner) returns (r: seq<Owner>, changed: bool)
    ensures r == WithOwner(owners, desired)
    ensures changed <==> desired !in owners
  {
    for i := 0 to |owners|
      invariant desired !in owners[..i]
    {
      if owners[i] == desired {
        return owners, false;
      }
    }
    assert owners[..|owners|] == owners;
    return owners + [desired], true;
  }

  /** What Kubernetes owner collection keeps of an owner list: the owners that still exist. */
  function LiveOwners(owners: seq<Owner>, alive: set<Owner>): (r: seq<Owner>)
    ensures forall o :: o in r <==> o in owners && o in alive
    ensures |r| <= |owners|
    ensures |r| == |owners| ==> r == owners
  {
    if owners == [] then []
    else if owners[0] in alive then [owners[0]] + LiveOwners(owners[1..], alive)
    else LiveOwners(owners[1..], alive)
  }

  // ---- the status as the controller edits it ----

  class CaptureRecord {
    var ready: Option<Verdict>
    var data: Option<nat>
    var completion: Option<int>

    constructor (s: CaptureStatus)
      ensures Value() == s
    {
      ready, data, completion := s.ready, s.data, s.completion;
    }

    function Value(): CaptureStatus
      reads this
    {
      CaptureStatus(ready, data, completion)
    }

    /**
     * finalizeVCR: the request is terminal for every reader, keeps the stamp it had, and is well formed exactly when
     * the caller had set the data for a success and for nothing else.
     */
    method FinalizeVCR(verdict: Verdict, now: int)
      modifies this`ready, this`completion
      ensures Value() == Finalized(old(Value()), old(data), verdict, now)
      ensures completion == if old(completion).Some? then old(completion) else Some(now)
      ensures ready == Some(verdict)
      ensures IsTerminal(Value()) <==>
              verdict.status == True || (verdict.status == False && verdict.reason != RTargetsPending)
      ensures StatusOk(Value()) <==>
              && IsTerminal(Value())
              && (data.Some? <==> verdict == Verdict(True, RCompleted))
              && (verdict.status == True ==> verdict.reason == RCompleted)
    {
      if completion.None? {
        completion := Some(now);
      }
      ready := Some(verdict);
    }

    /** patchVCRSnapshotPending: no reader takes the request for finished; well formed exactly when it has no data. */
    method PatchVCRSnapshotPending()
      modifies this`ready, this`completion
      ensures Value() == MarkedPending(old(Value()))
      ensures ready == Some(Verdict(False, RTargetsPending)) && completion.None?
      ensures !IsTerminal(Value()) && !ImportSeesReady(Value()) && !ImportSeesFailed(Value())
      ensures StatusOk(Value()) <==> data.None?
    {
      ready := Some(Verdict(False, RTargetsPending));
      completion := None;
    }
  }
}
