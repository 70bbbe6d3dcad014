// One DataImport or DataExport object in the API server, and everybody who writes it:
// the controller (updateDataImport / updateDataExport), the pod's serverState, timestamp and CA writers
// (images/data-exporter/internal/repository/k8s.go), the URL writer (server_pod.go), the users and the collector.
module SharedStatus {
  import opened Options
  import opened Finalizers
  import opened Lifecycle
  import opened ImportLifecycle

  datatype Status = Status(ctl: Controlled, url: string, ca: string, access: int, server: ServerState)

  datatype Object = Object(deleting: bool, finalizers: seq<string>, status: Status)

  // A write the pod, or the URL writer, makes by reading the whole object and updating its status.
  datatype Edit = SetState(next: ServerState) | SetAccess(timestamp: int) | SetCA(ca: string) | SetUrl(url: string)

  datatype Writer = Writer(edit: Edit, read: nat)

  // What updateDataImport was called with.
  datatype Job = Job(ctl: Controlled, want: bool, needMeta: bool, needStatus: bool)

  datatype Controller =
    | AtRest
    | Fetch(job: Job)                                   // about to read a live copy
    | UpdateMeta(job: Job, live: Object, version: nat)  // about to update the metadata
    | UpdateStatus(job: Job, live: Object, version: nat) // about to update the status

  // The history of the stored object: its resourceVersion is the index of its last entry.
  datatype World = World(
    kind: Kind,
    ttl: int,                      // the collector's retention
    history: seq<Object>,
    times: seq<int>,               // when each entry was committed
    own: nat,                      // the controller's own last commit
    controller: Controller,
    writers: map<nat, Writer>,
    clock: int,
    gone: bool,
    collectedAt: Option<int>)      // when the garbage collector deleted it, if it did

  datatype Event =
    | Tick
    | Start(read: nat, inputs: Inputs)
    | Get(read: nat)
    | Commit
    | Crash
    | PodRead(id: nat, edit: Edit, read: nat)
    | PodWrite(id: nat)
    | PodDies(id: nat)
    | EditForeign(finalizers: seq<string>)
    | UserDeletes
    | Collect(read: nat)

  function Current(w: World): Object
    requires w.history != []
  {
    w.history[|w.history| - 1]
  }

  function Append(w: World, o: Object): World {
    w.(history := w.history + [o], times := w.times + [w.clock])
  }

  function SeenOf(o: Object): Seen {
    Seen(o.deleting, FINALIZER in o.finalizers, o.status.server, o.status.ctl)
  }

  // ---- the controller ----

  /** The reconcile body on the object it read; the writes wait in updateDataImport. */
  function StepStart(w: World, read: nat, inputs: Inputs): World
    requires w.history != []
  {
    if w.controller != AtRest || !(w.own <= read < |w.history|) then w
    else
      var o := w.history[read];
      var (ctl, want) := Computed(w.kind, SeenOf(o), inputs, w.clock);
      var job := Job(ctl, want, want != (FINALIZER in o.finalizers), ctl != o.status.ctl);
      if job.needMeta || job.needStatus then w.(controller := Fetch(job)) else w
  }

  function Begin(job: Job, live: Object, version: nat): Controller {
    if job.needMeta then UpdateMeta(job, live, version)
    else UpdateStatus(job, live, version)
  }

  function StepGet(w: World, read: nat): World {
    if !w.controller.Fetch? then w
    else if w.gone then w.(controller := AtRest)
    else if read >= |w.history| then w
    else w.(controller := Begin(w.controller.job, w.history[read], read))
  }

  // The controller's fields onto the live copy; the pod's fields stay as they were read.
  function Merged(ctl: Controlled, live: Status): Status {
    Status(ctl, live.url, live.ca, live.access, live.server)
  }

  /** One guarded update; a conflict goes back to Fetch, as RetryOnConflict does. */
  function StepCommit(w: World): World
    requires w.history != []
  {
    match w.controller
    case UpdateMeta(job, live, version) =>
      if w.gone then w.(controller := AtRest)
      else if version != |w.history| - 1 then w.(controller := Fetch(job))
      else
        var o := live.(finalizers := Reconciled(live.finalizers, FINALIZER, job.want));
        var w' := Append(w, o).(own := |w.history|);
        if o.deleting && o.finalizers == [] then w'.(gone := true, controller := AtRest)
        else w'.(controller := if job.needStatus then UpdateStatus(job, o, |w.history|) else AtRest)
    case UpdateStatus(job, live, version) =>
      if w.gone then w.(controller := AtRest)
      else if version != |w.history| - 1 then w.(controller := Fetch(job))
      else Append(w, live.(status := Merged(job.ctl, live.status))).(own := |w.history|, controller := AtRest)
    case _ => w
  }

  // ---- the pod-side writers ----

  /** The status a writer sends, computed on the copy it read; None when it finds nothing to write. */
  function Edited(edit: Edit, s: Status): Option<Status> {
    match edit
    case SetState(next) => if ShouldSetServerState(s.server, next) then Some(s.(server := next)) else None
    case SetAccess(timestamp) => Some(s.(access := timestamp))
    case SetCA(ca) => if s.ca == ca then None else Some(s.(ca := ca))
    case SetUrl(url) => if s.url == url then None else Some(s.(url := url))
  }

  /** A writer sends the whole status it read, edited; it commits only on the version it read. */
  function StepPodWrite(w: World, id: nat): World
    requires w.history != []
  {
    if id !in w.writers then w
    else
      var writer := w.writers[id];
      var w' := w.(writers := w.writers - {id});
      if w.gone || writer.read != |w.history| - 1 then w'
      else
        var read := w.history[writer.read];
        match Edited(writer.edit, read.status)
        case None => w'
        case Some(s) => Append(w', read.(status := s))
  }

  // ---- users and the collector ----

  function DeletedObject(w: World): World
    requires w.history != []
  {
    if w.gone then w
    else if Current(w).finalizers == [] then w.(gone := true)
    else if Current(w).deleting then w
    else Append(w, Current(w).(deleting := true))
  }

  function StepEditForeign(w: World, finalizers: seq<string>): World
    requires w.history != []
  {
    if w.gone || (FINALIZER in finalizers) != (FINALIZER in Current(w).finalizers) then w
    else if Current(w).deleting && finalizers == [] then w.(gone := true)
    else Append(w, Current(w).(finalizers := finalizers))
  }

  /** isReapable: terminal, not terminating, and completed more than ttl ago. */
  predicate IsReapable(o: Object, ttl: int, now: int) {
    && !o.deleting
    && o.status.ctl.phase.IsTerminal()
    && o.status.ctl.completion.Some?
    && now - o.status.ctl.completion.value > ttl
  }

  /** gc_reconciler Reconcile: re-check what was read, then delete. */
  function StepCollect(w: World, read: nat): World
    requires w.history != []
  {
    if w.gone || read >= |w.history| || !IsReapable(w.history[read], w.ttl, w.clock) then w
    else DeletedObject(w).(collectedAt := if w.collectedAt.None? then Some(w.clock) else w.collectedAt)
  }

  function Next(w: World, ev: Event): (r: World)
    requires w.history != []
    ensures r.history != []
  {
    match ev
    case Tick => w.(clock := w.clock + 1)
    case Start(read, inputs) => StepStart(w, read, inputs)
    case Get(read) => StepGet(w, read)
    case Commit => StepCommit(w)
    case Crash => w.(controller := AtRest)
    case PodRead(id, edit, read) =>
      if read < |w.history| && !w.gone then w.(writers := w.writers[id := Writer(edit, read)]) else w
    case PodWrite(id) => StepPodWrite(w, id)
    case PodDies(id) => w.(writers := w.writers - {id})
    case EditForeign(finalizers) => StepEditForeign(w, finalizers)
    case UserDeletes => DeletedObject(w)
    case Collect(read) => StepCollect(w, read)
  }

  function Run(w: World, evs: seq<Event>): (r: World)
    requires w.history != []
    ensures r.history != []
  {
    if evs == [] then w else Next(Run(w, evs[..|evs| - 1]), evs[|evs| - 1])
  }

  // ---- the registers the shared object is meant to be ----

  // One register per owner. `foreign` is the finalizer list without the controller's own entry.
  datatype Registers = Registers(
    ctl: Controlled, ours: bool,                                        // the controller
    server: ServerState, access: int, ca: string, url: string,          // the pod and the URL writer
    foreign: seq<string>, deleting: bool)                               // everybody else

  function RegistersOf(o: Object): Registers {
    Registers(o.status.ctl, FINALIZER in o.finalizers,
              o.status.server, o.status.access, o.status.ca, o.status.url,
              Without(o.finalizers, FINALIZER), o.deleting)
  }

  // A write to one register. It carries the owner's value and nothing the owner read.
  datatype Effect =
    | NoEffect
    | WriteControlled(ctl: Controlled)
    | WriteOurs(ours: bool)
    | WritePod(edit: Edit)
    | WriteForeign(foreign: seq<string>)
    | MarkDeleting

  function Apply(r: Registers, e: Effect): Registers {
    match e
    case NoEffect => r
    case WriteControlled(ctl) => r.(ctl := ctl)
    case WriteOurs(ours) => r.(ours := ours)
    case WritePod(SetState(next)) =>
      if ShouldSetServerState(r.server, next) then r.(server := next) else r
    case WritePod(SetAccess(timestamp)) => r.(access := timestamp)
    case WritePod(SetCA(ca)) => r.(ca := ca)
    case WritePod(SetUrl(url)) => r.(url := url)
    case WriteForeign(foreign) => r.(foreign := foreign)
    case MarkDeleting => r.(deleting := true)
  }

  /** The register write an event stands for: what its author set out to write, if it got through. */
  function EffectOf(w: World, ev: Event): Effect
    requires w.history != []
  {
    if |Next(w, ev).history| == |w.history| then NoEffect
    else match ev
    case Commit =>
      if w.controller.UpdateMeta? then WriteOurs(w.controller.job.want)
      else if w.controller.UpdateStatus? then WriteControlled(w.controller.job.ctl)
      else NoEffect
    case PodWrite(id) => if id in w.writers then WritePod(w.writers[id].edit) else NoEffect
    case EditForeign(finalizers) => WriteForeign(Without(finalizers, FINALIZER))
    case UserDeletes => MarkDeleting
    case Collect(_) => MarkDeleting
    case _ => NoEffect
  }

  // ---- what every step keeps of the versions ----

  predicate InvVersions(w: World) {
    && w.history != []
    && |w.times| == |w.history|
    && w.own < |w.history|
    && (forall id | id in w.writers :: w.writers[id].read < |w.history|)
    && (w.controller.UpdateMeta? ==>
          w.controller.version < |w.history| && w.controller.live == w.history[w.controller.version])
    && (w.controller.UpdateStatus? ==>
          w.controller.version < |w.history| && w.controller.live == w.history[w.controller.version])
  }

  predicate Untouched(c: Controlled) {
    && c.ready.None? && c.uploaded.None? && c.completed.None?
    && c.phase == Unset && c.completion.None? && c.data.None?
  }

  predicate Initial(w: World) {
    && |w.history| == 1 && |w.times| == 1 && w.own == 0
    && w.controller == AtRest && w.writers == map[] && !w.gone && w.collectedAt.None?
    && Untouched(w.history[0].status.ctl)
    && w.times[0] <= w.clock
    && w.history[0].status.server == NoState && !w.history[0].deleting
  }

  lemma NextVersions(w: World, ev: Event)
    requires InvVersions(w)
    ensures InvVersions(Next(w, ev))
    ensures w.history <= Next(w, ev).history && |Next(w, ev).history| <= |w.history| + 1
  {
    match ev
    case Commit => CommitVersions(w);
    case PodWrite(id) => PodWriteVersions(w, id);
    case Start(read, inputs) => assert StepStart(w, read, inputs).history == w.history;
    case _ =>
  }

  lemma CommitVersions(w: World)
    requires InvVersions(w)
    ensures InvVersions(StepCommit(w))
    ensures w.history <= StepCommit(w).history && |StepCommit(w).history| <= |w.history| + 1
  {}

  lemma PodWriteVersions(w: World, id: nat)
    requires InvVersions(w)
    ensures InvVersions(StepPodWrite(w, id))
    ensures w.history <= StepPodWrite(w, id).history && |StepPodWrite(w, id).history| <= |w.history| + 1
  {}

  lemma {:induction false} RunVersions(w: World, evs: seq<Event>)
    requires Initial(w)
    ensures InvVersions(Run(w, evs))
  {
    if evs != [] {
      RunVersions(w, evs[..|evs| - 1]);
      NextVersions(Run(w, evs[..|evs| - 1]), evs[|evs| - 1]);
    }
  }

  /** Whole-object writes from old reads act on the object exactly as single-register writes would. */
  lemma StepRefinesRegisters(w: World, ev: Event)
    requires InvVersions(w)
    ensures RegistersOf(Current(Next(w, ev))) == Apply(RegistersOf(Current(w)), EffectOf(w, ev))
  {
    match ev
    case Commit => CommitRefines(w);
    case PodWrite(id) => PodWriteRefines(w, id);
    case EditForeign(finalizers) => ForeignRefines(w, finalizers);
    case UserDeletes => UserDeletionRefines(w);
    case Collect(read) => CollectRefines(w, read);
    case Start(read, inputs) => assert StepStart(w, read, inputs).history == w.history;
    case _ => assert Next(w, ev).history == w.history;
  }

  lemma CommitRefines(w: World)
    requires InvVersions(w)
    ensures RegistersOf(Current(Next(w, Commit))) == Apply(RegistersOf(Current(w)), EffectOf(w, Commit))
  {
    var w' := StepCommit(w);
    if |w'.history| == |w.history| {
      assert w'.history == w.history;
    }
  }

  lemma PodWriteRefines(w: World, id: nat)
    requires InvVersions(w)
    ensures RegistersOf(Current(Next(w, PodWrite(id)))) == Apply(RegistersOf(Current(w)), EffectOf(w, PodWrite(id)))
  {
    var w' := StepPodWrite(w, id);
    if |w'.history| == |w.history| {
      assert w'.history == w.history;
    } else {
      var writer := w.writers[id];
      assert w.history[writer.read] == Current(w);
      assert Some(Current(w').status) == Edited(writer.edit, Current(w).status);
      EditedRefines(writer.edit, Current(w));
    }
  }

  /** An edit that finds something to write is the write of its own register. */
  lemma EditedRefines(edit: Edit, o: Object)
    requires Edited(edit, o.status).Some?
    ensures RegistersOf(o.(status := Edited(edit, o.status).value)) == Apply(RegistersOf(o), WritePod(edit))
  {}

  lemma ForeignRefines(w: World, finalizers: seq<string>)
    requires InvVersions(w)
    ensures var ev := EditForeign(finalizers);
            RegistersOf(Current(Next(w, ev))) == Apply(RegistersOf(Current(w)), EffectOf(w, ev))
  {
    var w' := StepEditForeign(w, finalizers);
    if |w'.history| == |w.history| {
      assert w'.history == w.history;
    }
  }

  lemma DeletionRefines(w: World)
    requires InvVersions(w)
    ensures var w' := DeletedObject(w);
            RegistersOf(Current(w')) == RegistersOf(Current(w)).(deleting := Current(w').deleting)
    ensures |DeletedObject(w).history| != |w.history| ==> Current(DeletedObject(w)).deleting
    ensures |DeletedObject(w).history| == |w.history| ==> DeletedObject(w).history == w.history
  {}

  lemma UserDeletionRefines(w: World)
    requires InvVersions(w)
    ensures RegistersOf(Current(Next(w, UserDeletes))) == Apply(RegistersOf(Current(w)), EffectOf(w, UserDeletes))
  {
    DeletionRefines(w);
  }

  lemma CollectRefines(w: World, read: nat)
    requires InvVersions(w)
    ensures RegistersOf(Current(Next(w, Collect(read)))) == Apply(RegistersOf(Current(w)), EffectOf(w, Collect(read)))
  {
    DeletionRefines(w);
    if !w.gone && read < |w.history| && IsReapable(w.history[read], w.ttl, w.clock) {
      assert StepCollect(w, read).history == DeletedObject(w).history;
    } else {
      assert StepCollect(w, read) == w;
    }
  }

  function EffectsOf(w: World, evs: seq<Event>): seq<Effect>
    requires w.history != []
  {
    if evs == [] then []
    else EffectsOf(w, evs[..|evs| - 1]) + [EffectOf(Run(w, evs[..|evs| - 1]), evs[|evs| - 1])]
  }

  function ApplyAll(r: Registers, es: seq<Effect>): Registers {
    if es == [] then r else Apply(ApplyAll(r, es[..|es| - 1]), es[|es| - 1])
  }

  /** No lost update, over every run: the object is what its committed register writes, in order, make it. */
  lemma {:induction false} NoLostUpdate(w: World, evs: seq<Event>)
    requires Initial(w)
    ensures RegistersOf(Current(Run(w, evs))) == ApplyAll(RegistersOf(Current(w)), EffectsOf(w, evs))
  {
    if evs != [] {
      var before, ev := evs[..|evs| - 1], evs[|evs| - 1];
      NoLostUpdate(w, before);
      RunVersions(w, before);
      StepRefinesRegisters(Run(w, before), ev);
      var es := EffectsOf(w, evs);
      assert es[..|es| - 1] == EffectsOf(w, before);
    }
  }

  /** Each register moves only when its owner writes it. */
  lemma OwnersOnly(w: World, ev: Event)
    requires InvVersions(w)
    ensures var r, r' := RegistersOf(Current(w)), RegistersOf(Current(Next(w, ev)));
            && (r'.ctl != r.ctl ==> ev.Commit? && w.controller.UpdateStatus?)
            && (r'.ours != r.ours ==> ev.Commit? && w.controller.UpdateMeta?)
            && (r'.server != r.server ==> ev.PodWrite? && ev.id in w.writers && w.writers[ev.id].edit.SetState?)
            && (r'.access != r.access ==> ev.PodWrite? && ev.id in w.writers && w.writers[ev.id].edit.SetAccess?)
            && (r'.ca != r.ca ==> ev.PodWrite? && ev.id in w.writers && w.writers[ev.id].edit.SetCA?)
            && (r'.url != r.url ==> ev.PodWrite? && ev.id in w.writers && w.writers[ev.id].edit.SetUrl?)
            && (r'.foreign != r.foreign ==> ev.EditForeign?)
  {
    StepRefinesRegisters(w, ev);
  }

  /** serverState only climbs, from any earlier version to any later one; Finished is therefore final. */
  lemma ServerClimbs(w: World, ev: Event)
    requires InvVersions(w)
    ensures Current(w).status.server.Rank() <= Current(Next(w, ev)).status.server.Rank()
  {
    StepRefinesRegisters(w, ev);
    var e := EffectOf(w, ev);
    if e.WritePod? && e.edit.SetState? {
      GuardIsClimb(Current(w).status.server, e.edit.next);
    }
  }

  predicate Climbing(history: seq<Object>) {
    forall i, j | 0 <= i <= j < |history| :: history[i].status.server.Rank() <= history[j].status.server.Rank()
  }

  lemma NextClimbs(w: World, ev: Event)
    requires InvVersions(w) && Climbing(w.history)
    ensures Climbing(Next(w, ev).history)
  {
    ServerClimbs(w, ev);
    NextVersions(w, ev);
    var h, h' := w.history, Next(w, ev).history;
    forall i, j | 0 <= i <= j < |h'|
      ensures h'[i].status.server.Rank() <= h'[j].status.server.Rank()
    {
      if j < |h| {
        assert h'[i] == h[i] && h'[j] == h[j];
      } else if i < |h| {
        assert h'[i] == h[i];
        assert h[i].status.server.Rank() <= h[|h| - 1].status.server.Rank();
      }
    }
  }

  lemma {:induction false} ServerStateIsMonotone(w: World, evs: seq<Event>)
    requires Initial(w)
    ensures Climbing(Run(w, evs).history)
    ensures var h := Run(w, evs).history;
            forall i, j | 0 <= i <= j < |h| && h[i].status.server == Finished :: h[j].status.server == Finished
  {
    if evs != [] {
      ServerStateIsMonotone(w, evs[..|evs| - 1]);
      RunVersions(w, evs[..|evs| - 1]);
      NextClimbs(Run(w, evs[..|evs| - 1]), evs[|evs| - 1]);
    }
  }

  // ---- the pod's writers, as they edit the copy they read ----

  class DataManagerCopy {
    var status: Status

    constructor (status: Status)
      ensures this.status == status
    {
      this.status := status;
    }

    /** SetServerState, up to its update: nothing is sent unless the state climbs. */
    method SetServerState(state: ServerState) returns (send: bool)
      modifies this
      ensures Edited(SetState(state), old(status)) == if send then Some(status) else None
      ensures send <==> old(status).server.Rank() < state.Rank()
      ensures !send ==> status == old(status)
    {
      GuardIsClimb(status.server, state);
      if !ShouldSetServerState(status.server, state) {
        return false;
      }
      status := status.(server := state);
      return true;
    }

    method UpdateDataManagerCA(ca: string) returns (send: bool)
      modifies this
      ensures Edited(SetCA(ca), old(status)) == if send then Some(status) else None
      ensures status.ca == ca && status == old(status).(ca := ca)
      ensures send <==> old(status).ca != ca
    {
      if status.ca == ca {
        return false;
      }
      status := status.(ca := ca);
      return true;
    }
  }
}
