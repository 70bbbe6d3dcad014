// What an undisturbed writer of the shared object achieves: the other half of NoLostUpdate, which says that nothing
// else happens.
module StatusProgress {
  import opened Options
  import opened Finalizers
  import opened Lifecycle
  import opened ImportLifecycle
  import opened SharedStatus

  function Latest(w: World): nat
    requires w.history != []
  {
    |w.history| - 1
  }

  // ---- the pod and the URL writer ----

  /** A writer that reads the current version and meets no conflict writes its register, a state only upwards. */
  lemma FreshWriteLands(w: World, id: nat, edit: Edit)
    requires InvVersions(w) && !w.gone
    ensures var w' := Next(Next(w, PodRead(id, edit, Latest(w))), PodWrite(id));
            var r, r' := RegistersOf(Current(w)), RegistersOf(Current(w'));
            match edit
            case SetState(next) => r' == r.(server := if r.server.Rank() < next.Rank() then next else r.server)
            case SetAccess(timestamp) => r' == r.(access := timestamp)
            case SetCA(ca) => r' == r.(ca := ca)
            case SetUrl(url) => r' == r.(url := url)
  {
    var w1 := Next(w, PodRead(id, edit, Latest(w)));
    NextVersions(w, PodRead(id, edit, Latest(w)));
    assert w1.writers[id] == Writer(edit, Latest(w)) && Current(w1) == Current(w);
    StepRefinesRegisters(w1, PodWrite(id));
    if edit.SetState? {
      GuardIsClimb(Current(w).status.server, edit.next);
    }
  }

  /** A writer whose version is no longer the current one changes nothing. */
  lemma StaleWriteFails(w: World, id: nat)
    requires InvVersions(w) && id in w.writers && w.writers[id].read != Latest(w)
    ensures Next(w, PodWrite(id)) == w.(writers := w.writers - {id})
  {}

  // ---- the controller ----

  /** The object once a reconcile has computed `ctl` and `want` for it and nobody interferes. */
  predicate Stored(o: Object, o': Object, ctl: Controlled, want: bool) {
    && o'.status == Status(ctl, o.status.url, o.status.ca, o.status.access, o.status.server)
    && (FINALIZER in o'.finalizers <==> want)
    && Without(o'.finalizers, FINALIZER) == Without(o.finalizers, FINALIZER)
    && o'.deleting == o.deleting
  }

  predicate LastFinalizerGoes(o: Object, want: bool) {
    o.deleting && !want && FINALIZER in o.finalizers && Without(o.finalizers, FINALIZER) == []
  }

  lemma MetaLands(w: World, job: Job)
    requires InvVersions(w) && !w.gone && w.controller == UpdateMeta(job, Current(w), Latest(w))
    requires job.needMeta && job.want != (FINALIZER in Current(w).finalizers)
    ensures var o, w' := Current(w), StepCommit(w);
            && w'.gone == LastFinalizerGoes(o, job.want)
            && Current(w') == o.(finalizers := Reconciled(o.finalizers, FINALIZER, job.want))
            && (!w'.gone && job.needStatus ==> w'.controller == UpdateStatus(job, Current(w'), Latest(w')))
            && (!w'.gone && !job.needStatus ==> w'.controller == AtRest)
  {}

  lemma StatusLands(w: World, job: Job)
    requires InvVersions(w) && !w.gone && w.controller == UpdateStatus(job, Current(w), Latest(w))
    ensures var o, w' := Current(w), StepCommit(w);
            && !w'.gone && w'.controller == AtRest
            && Current(w') == o.(status := Status(job.ctl, o.status.url, o.status.ca, o.status.access, o.status.server))
  {}

  /**
   * A reconcile on the current version that meets no conflict stores what it computed, metadata first, and rests. The
   * object is gone instead exactly when that takes the last finalizer off a deleted object.
   */
  lemma FreshReconcileLands(w: World, inputs: Inputs)
    requires InvVersions(w) && !w.gone && w.controller == AtRest
    ensures var (ctl, want) := Computed(w.kind, SeenOf(Current(w)), inputs, w.clock);
            var w' := Next(Next(Next(Next(w, Start(Latest(w), inputs)), Get(Latest(w))), Commit), Commit);
            && (w'.gone <==> LastFinalizerGoes(Current(w), want))
            && w'.controller == AtRest
            && (!w'.gone ==> Stored(Current(w), Current(w'), ctl, want))
  {
    var o := Current(w);
    var (ctl, want) := Computed(w.kind, SeenOf(o), inputs, w.clock);
    var job := Job(ctl, want, want != (FINALIZER in o.finalizers), ctl != o.status.ctl);
    var w1 := Next(w, Start(Latest(w), inputs));
    var w2 := Next(w1, Get(Latest(w)));
    if !job.needMeta && !job.needStatus {
      assert w1 == w && w2 == w;
    } else {
      assert w1 == w.(controller := Fetch(job));
      assert w2 == w.(controller := Begin(job, o, Latest(w)));
      if job.needMeta {
        MetaLands(w2, job);
        var w3 := Next(w2, Commit);
        CommitVersions(w2);
        if !w3.gone && job.needStatus {
          StatusLands(w3, job);
        }
      } else {
        StatusLands(w2, job);
      }
    }
  }

  /** A controller whose version is no longer the current one changes nothing and reads again. */
  lemma StaleCommitRetries(w: World)
    requires InvVersions(w) && !w.gone
    requires w.controller.UpdateMeta? || w.controller.UpdateStatus?
    requires w.controller.version != Latest(w)
    ensures Next(w, Commit) == w.(controller := Fetch(w.controller.job))
  {}

  /** The retry on the version that is current by then stores the same intent, whatever others have written meanwhile. */
  lemma RetryLands(w: World, job: Job)
    requires InvVersions(w) && !w.gone && w.controller == Fetch(job) && (job.needMeta || job.needStatus)
    ensures var o := Current(w);
            var w' := Next(Next(Next(w, Get(Latest(w))), Commit), Commit);
            && (w'.gone <==> job.needMeta && o.deleting && Reconciled(o.finalizers, FINALIZER, job.want) == [])
            && w'.controller == AtRest
            && (!w'.gone ==>
                  && Current(w').status.ctl == (if job.needStatus then job.ctl else o.status.ctl)
                  && (FINALIZER in Current(w').finalizers <==> if job.needMeta then job.want else FINALIZER in o.finalizers)
                  && RegistersOf(Current(w')) ==
                     RegistersOf(o).(ctl := Current(w').status.ctl, ours := FINALIZER in Current(w').finalizers))
  {
    var w1 := Next(w, Get(Latest(w)));
    assert w1 == w.(controller := Begin(job, Current(w), Latest(w)));
    CommitVersions(w1);
    var w2 := Next(w1, Commit);
    if job.needMeta && job.needStatus && !w2.gone {
      StatusLands(w2, job);
    } else if !job.needMeta {
      StatusLands(w1, job);
    }
  }

  /** Once the object is gone a reconcile in progress ends without a write. */
  lemma GoneEndsReconcile(w: World, read: nat)
    requires InvVersions(w) && w.gone
    ensures w.controller.Fetch? ==> Next(w, Get(read)) == w.(controller := AtRest)
    ensures w.controller.UpdateMeta? || w.controller.UpdateStatus? ==> Next(w, Commit) == w.(controller := AtRest)
  {}

  // ---- the users and the collector ----

  /** A deletion removes an object without finalizers and marks any other; the collector does so to what it finds due. */
  lemma DeletionLands(w: World, read: nat)
    requires InvVersions(w) && !w.gone
    ensures var w' := Next(w, UserDeletes);
            && (w'.gone <==> Current(w).finalizers == [])
            && (!w'.gone ==> Current(w') == Current(w).(deleting := true))
    ensures read < |w.history| && IsReapable(w.history[read], w.ttl, w.clock) ==>
              var w' := Next(w, Collect(read));
              && (w'.gone <==> Current(w).finalizers == [])
              && (!w'.gone ==> Current(w') == Current(w).(deleting := true))
    ensures read < |w.history| && !IsReapable(w.history[read], w.ttl, w.clock) ==> Next(w, Collect(read)) == w
  {}
}
