// What a reconcile of the capture request answers, and when a request or a content is deleted.
module ArtifactAnswers {
  import opened Options
  import opened Lifecycle
  import opened CaptureRequest
  import opened ArtifactMachine
  import opened ArtifactTheorems

  // ---- the answers of a reconcile at its target ----

  function Stamped(seen: CaptureStatus, now: int): Option<int> {
    if seen.completion.Some? then seen.completion else Some(now)
  }

  function WithStatus(w: World, status: CaptureStatus): World
    requires w.request.Some?
  {
    w.(request := Some(Request(w.request.value.uid, status)), capturer := CaptureRests)
  }

  /** A transient first obstacle leaves everything as it is; one for good is stored with its reason and a stamp. */
  lemma ObstacleIsAnswered(w: World, uid: nat, seen: CaptureStatus, facts: Facts, classRetains: bool, i: nat)
    requires w.capturer == Targeting(uid, seen) && w.request.Some? && FirstNotPassed(Checks(Met(w, facts)), i)
    ensures var check := Checks(Met(w, facts))[i];
            var w1 := Next(w, CaptureStep(facts, classRetains));
            if check.Transient? then w1 == w.(capturer := CaptureRests)
            else Next(w1, CaptureStep(facts, classRetains)) ==
                 WithStatus(w, CaptureStatus(Some(Verdict(False, check.reason)), seen.data, Stamped(seen, w.clock)))
  {
    TargetExactly(Met(w, facts), ContentOf(w, uid));
    assert Next(w, CaptureStep(facts, classRetains)) == StepTarget(w, uid, seen, facts);
  }

  /** With nothing in the way: no content yet makes one of the scratch volume, owned by the retainer, and then pending. */
  lemma ContentIsMade(w: World, uid: nat, seen: CaptureStatus, facts: Facts, classRetains: bool)
    requires w.capturer == Targeting(uid, seen) && w.request.Some? && AllFound(Met(w, facts))
    requires uid !in w.live && uid !in w.history
    ensures w.scratch.Some?
    ensures var w1 := Next(w, CaptureStep(facts, classRetains));
            var w2 := Next(w1, CaptureStep(facts, classRetains));
            && w2.history == w.history[uid := [Artifact([Retainer(uid)], classRetains, Present(false, false), w.scratch.value)]]
            && w2.live == w.live + {uid}
            && Next(w2, CaptureStep(facts, classRetains)) ==
               WithStatus(w.(history := w2.history, live := w2.live),
                          CaptureStatus(Some(Verdict(False, RTargetsPending)), w.request.value.status.data, None))
  {
    TargetOutcomes(Met(w, facts), ContentOf(w, uid));
    var v := Artifact([Retainer(uid)], classRetains, Present(false, false), w.scratch.value);
    assert [] + [v] == [v];
    assert Next(w, CaptureStep(facts, classRetains)) == w.(capturer := Creating(uid, w.scratch.value));
  }

  /** A content that is there: pending while it is not ready or reports an error, else completed with it as the data. */
  lemma ContentIsReported(w: World, uid: nat, seen: CaptureStatus, facts: Facts, classRetains: bool)
    requires w.capturer == Targeting(uid, seen) && w.request.Some? && AllFound(Met(w, facts))
    requires Exists(w, uid) && Last(w, uid).content.Present?
    ensures var w1 := Next(w, CaptureStep(facts, classRetains));
            Next(w1, CaptureStep(facts, classRetains)) ==
            WithStatus(w, if Last(w, uid).content == Present(false, true)
                          then CaptureStatus(Some(Verdict(True, RCompleted)), Some(uid), Stamped(seen, w.clock))
                          else CaptureStatus(Some(Verdict(False, RTargetsPending)), w.request.value.status.data, None))
  {
    TargetExactly(Met(w, facts), ContentOf(w, uid));
    TargetOutcomes(Met(w, facts), ContentOf(w, uid));
    assert Next(w, CaptureStep(facts, classRetains)) == StepTarget(w, uid, seen, facts);
  }

  /** A reconcile of an open request ensures its retainer and goes on to the target; a bad target fails it for good. */
  lemma StartIsAnswered(w: World, facts: Facts, classRetains: bool)
    requires w.capturer == CaptureRests && w.request.Some? && !IsTerminal(w.request.value.status)
    ensures var Request(uid, status) := w.request.value;
            && Next(Next(w, CaptureStart(true)), CaptureStep(facts, classRetains)) ==
               w.(retainers := w.retainers + {uid}, capturer := Targeting(uid, status))
            && Next(Next(w, CaptureStart(false)), CaptureStep(facts, classRetains)) ==
               WithStatus(w, CaptureStatus(Some(Verdict(False, RInternalError)), status.data, Stamped(status, w.clock)))
  {}

  // ---- when a request is collected ----

  // The collector is only ever at work on a request that is overdue by its stamp.
  predicate OverdueInv(w: World) {
    w.importAlive && w.collector != CollectorRests ==> w.request.Some? && Overdue(w.request.value.status, w)
  }

  predicate Overdue(s: CaptureStatus, w: World) {
    s.completion.Some? && w.clock - s.completion.value > w.ttl
  }

  lemma ClockGoesOn(w: World, ev: Event)
    ensures Next(w, ev).clock >= w.clock && Next(w, ev).ttl == w.ttl
  {
    match ev
    case ImportStep(read) => assert StepImport(w, read).clock == w.clock && StepImport(w, read).ttl == w.ttl;
    case CaptureStep(facts, classRetains) => assert StepCapture(w, facts, classRetains).clock == w.clock;
    case OwnerGc(a) => assert StepOwnerGc(w, a).clock == w.clock;
    case _ =>
  }

  lemma OnlyCollectStarts(w: World, ev: Event)
    requires w.collector == CollectorRests && ev != CollectStart
    ensures Next(w, ev).collector == CollectorRests
  {
    match ev
    case ImportStep(read) => assert StepImport(w, read).collector == w.collector;
    case CaptureStep(facts, classRetains) => assert StepCapture(w, facts, classRetains).collector == w.collector;
    case OwnerGc(a) => assert StepOwnerGc(w, a).collector == w.collector;
    case _ =>
  }

  lemma ImportNeverReturns(w: World, ev: Event)
    requires Next(w, ev).importAlive
    ensures w.importAlive
  {
    match ev
    case ImportStep(read) => assert StepImport(w, read).importAlive == w.importAlive;
    case CaptureStep(facts, classRetains) => assert StepCapture(w, facts, classRetains).importAlive == w.importAlive;
    case OwnerGc(a) => assert StepOwnerGc(w, a).importAlive == w.importAlive;
    case _ =>
  }

  lemma OverdueKept(w: World, ev: Event)
    requires Inv(w) && OverdueInv(w)
    ensures OverdueInv(Next(w, ev))
  {
    var w' := Next(w, ev);
    NextKeeps(w, ev);
    ClockGoesOn(w, ev);
    if w'.importAlive && w'.collector != CollectorRests {
      ImportNeverReturns(w, ev);
      if w.collector == CollectorRests {
        if ev != CollectStart {
          OnlyCollectStarts(w, ev);
        }
      } else {
        TerminalStays(w, ev);
      }
    }
  }

  lemma {:induction false} OverdueOver(w: World, evs: seq<Event>)
    requires Initial(w)
    ensures OverdueInv(Run(w, evs))
  {
    if evs != [] {
      OverdueOver(w, evs[..|evs| - 1]);
      RunKeeps(w, evs[..|evs| - 1]);
      OverdueKept(Run(w, evs[..|evs| - 1]), evs[|evs| - 1]);
    }
  }

  lemma OnlyCollectorRemoves(w: World, ev: Event)
    requires w.importAlive && w.request.Some? && !(ev.CollectStep? && w.collector == DeleteRequest)
    ensures Next(w, ev).request.Some?
  {
    match ev
    case ImportStep(read) => assert StepImport(w, read).request.Some?;
    case CaptureStep(facts, classRetains) => assert StepCapture(w, facts, classRetains).request.Some?;
    case OwnerGc(a) => assert StepOwnerGc(w, a).request == w.request;
    case _ =>
  }

  /** While the import exists its request is only ever removed terminal, and more than the ttl after its stamp. */
  lemma RequestCollectedOnlyWhenOverdue(w: World, evs: seq<Event>, ev: Event)
    requires Initial(w)
    requires Run(w, evs).importAlive && Run(w, evs).request.Some? && Next(Run(w, evs), ev).request.None?
    ensures var r := Run(w, evs); IsTerminal(r.request.value.status) && Overdue(r.request.value.status, r)
  {
    RunKeeps(w, evs);
    OverdueOver(w, evs);
    if !(ev.CollectStep? && Run(w, evs).collector == DeleteRequest) {
      OnlyCollectorRemoves(Run(w, evs), ev);
    }
  }

  /** A terminal request that is overdue is gone after one uninterrupted pass of the collector. */
  lemma OverdueIsCollected(w: World, evs: seq<Event>, read: nat)
    requires Initial(w)
    requires var r := Run(w, evs); r.importAlive && r.request.Some? && r.collector == CollectorRests
    requires var r := Run(w, evs); IsTerminal(r.request.value.status) && Overdue(r.request.value.status, r)
    ensures var r := Run(w, evs);
            var passed := Next(Next(Next(r, CollectStart), CollectStep(read)), CollectStep(read));
            passed == r.(request := None)
  {
    var r := Run(w, evs);
    RunKeeps(w, evs);
    var r1 := Next(r, CollectStart);
    assert r1 == r.(collector := PreDelete(r.request.value.status.data));
    NextKeeps(r, CollectStart);
    NextKeeps(r1, CollectStep(read));
    assert Next(r1, CollectStep(read)) == r.(collector := DeleteRequest);
  }

  // ---- when a content is deleted ----

  /** Owner collection deletes a content exactly when none of its owners is left, and else keeps exactly those that are. */
  lemma GoneWithLastOwner(w: World, evs: seq<Event>, a: nat)
    requires Initial(w) && Exists(Run(w, evs), a)
    ensures var r, r' := Run(w, evs), Next(Run(w, evs), OwnerGc(a));
            && (Exists(r', a) <==> exists o :: o in Last(r, a).owners && OwnerAlive(r, o))
            && (Exists(r', a) ==> forall o :: o in Last(r', a).owners <==> o in Last(r, a).owners && OwnerAlive(r, o))
            && (forall b | b != a :: Exists(r', b) <==> Exists(r, b))
  {
    RunKeeps(w, evs);
    var r := Run(w, evs);
    var v := Last(r, a);
    assert v.owners != [] by { assert r.history[a][|r.history[a]| - 1] == v; }
    var kept := LiveOwners(v.owners, AliveOwners(r, v.owners));
    if kept == [] {
      assert forall o | o in v.owners :: o !in kept;
    } else {
      assert kept[0] in kept;
    }
  }
}
