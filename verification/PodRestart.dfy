/** Purging: exactly which pods a housekeeping call forgets, and that a recreated pod starts again. */
module PodRestart {
  import opened Wrappers
  import opened PodLifecycle
  import opened PodLifecycleInvariant
  import opened PodLifecycleTheorems
  import opened PodTermination

  /** A housekeeping call forgets a pod if and only if it is finished and either no longer desired or asked to
      restart; then it leaves nothing of it behind but the record, else it changes nothing. */
  lemma PurgesExactly(p: Pod, known: bool)
    requires Reachable(p) && p.status.Some?
    ensures var q := Step(p, Housekeep(known));
            && (q.status.None? <==> p.status.value.finished && (!known || p.status.value.restartRequested))
            && (q.status.None? ==>
                  && q.updates.None? && q.undelivered.None? && q.workers == p.workers
                  && q.h.generated == [] && q.h.handled == [] && q.h.ran == [] && q.h.skipped == {}
                  && q.h.past == p.h.past + [p.h.handled] && q.h.pastRan == p.h.pastRan + [p.h.ran])
            && (q.status.Some? ==> q == p)
  {
  }

  // ------------------------------------------------------- a restart is remembered

  ghost predicate AskedToRestart(p: Pod) { p.status.Some? && p.status.value.restartRequested }

  /** A request to create a pod that is terminating or finished is remembered, and does nothing else. */
  lemma CreateAsksToRestart(p: Pod, o: UpdateOptions, cacheTerminal: bool)
    requires p.status.Some? && p.status.value.terminating && o.updateType.SyncPodCreate? && o.source.Config?
    ensures UpdatePod(p, o, cacheTerminal) == p.(status := Some(p.status.value.(restartRequested := true)))
  {
  }

  lemma DispatchKeepsRequest(p: Pod, st: Status, kind: WorkType, o: UpdateOptions)
    ensures var q := Dispatch(p, st, kind, o);
            q.status.Some? && q.status.value.restartRequested == st.restartRequested
  {
  }

  lemma UpdateKeepsRequest(p: Pod, o: UpdateOptions, cacheTerminal: bool)
    requires AskedToRestart(p)
    ensures AskedToRestart(UpdatePod(p, o, cacheTerminal))
  {
    var st := p.status.value;
    var st1 := BeginTermination(st, o);
    BeginKeeps(st, o);
    var closed := p.(h := CloseRequested(p.h, o));
    DispatchKeepsRequest(closed, st1, TerminatedPodWork, o.(kill := None));
    DispatchKeepsRequest(closed, st1, SyncPodWork, o.(kill := None));
    var st2 := RegisterKill(st1, o);
    DispatchKeepsRequest(p, st2, TerminatingPodWork, WithGrace(o, st2.gracePeriod));
  }

  lemma WorkerKeepsRequest(p: Pod, i: nat, a: Action)
    requires AskedToRestart(p)
    ensures AskedToRestart(WorkerStep(p, i, a))
  {
  }

  /** Until the purge no step forgets it. */
  lemma {:induction false} RequestIsRemembered(p: Pod, es: seq<Event>)
    requires Inv(p) && AskedToRestart(p)
    ensures |Run(p, es).h.past| >= |p.h.past|
    ensures |Run(p, es).h.past| == |p.h.past| ==> AskedToRestart(Run(p, es))
  {
    if es != [] {
      var fs, e := es[..|es| - 1], es[|es| - 1];
      var q := Run(p, fs);
      RequestIsRemembered(p, fs);
      match e
      case Update(o, cacheTerminal) =>
        UpdateKeepsPast(q, o, cacheTerminal);
        if AskedToRestart(q) { UpdateKeepsRequest(q, o, cacheTerminal); }
      case Work(i, a) =>
        WorkerKeepsStage(q, i, a);
        if AskedToRestart(q) { WorkerKeepsRequest(q, i, a); }
      case Housekeep(known) =>
    }
  }

  // -------------------------------------------------------------- and then honoured

  /** An update that says the pod should run. */
  predicate WantsRunning(o: UpdateOptions) {
    o.source.Config? && !o.source.deleting && !o.source.terminalPhase && !o.updateType.SyncPodKill?
  }

  /** The next such update of a forgotten pod starts a new worker, with one item of sync work in its channel
      and an empty history. */
  lemma ForgottenPodStartsAfresh(p: Pod, o: UpdateOptions, cacheTerminal: bool)
    requires Inv(p) && p.status.None? && WantsRunning(o)
    ensures var q, w := UpdatePod(p, o, cacheTerminal), Work.Work(0, SyncPodWork, o.(kill := None));
            && q.status == Some(FRESH.(working := true))
            && q.updates == Some(|p.workers|) && q.workers == p.workers + [Worker([w], false, Waiting)]
            && q.undelivered.None? && q.h.generated == [w] && q.h.handled == [] && q.h.past == p.h.past
  {
    var closed := p.(h := CloseRequested(p.h, o));
    assert BeginTermination(FRESH, o) == FRESH;
    FirstDispatch(closed, o.(kill := None));
  }

  lemma FirstDispatch(p: Pod, o: UpdateOptions)
    requires p.updates.None? && p.undelivered.None? && p.h.generated == []
    ensures var q, w := Dispatch(p, FRESH, SyncPodWork, o), Work.Work(0, SyncPodWork, o);
            && q.status == Some(FRESH.(working := true))
            && q.updates == Some(|p.workers|) && q.workers == p.workers + [Worker([w], false, Waiting)]
            && q.undelivered.None? && q.h == p.h.(generated := [w])
  {
    assert [] + [Work.Work(0, SyncPodWork, o)] == [Work.Work(0, SyncPodWork, o)];
  }

  /** A pod recreated while it terminates runs again: whatever happens meanwhile, once it is finished the next
      housekeeping call forgets it even though it is desired, and the next update that wants it running starts
      a new worker and a new incarnation, while every old worker has left. */
  lemma RecreatedPodStartsAgain(p: Pod, create: UpdateOptions, ct: bool, es: seq<Event>, o: UpdateOptions, ct': bool)
    requires Reachable(p) && p.status.Some? && p.status.value.terminating
    requires create.updateType.SyncPodCreate? && create.source.Config? && WantsRunning(o)
    requires var q := Run(UpdatePod(p, create, ct), es);
             |q.h.past| == |p.h.past| && q.status.Some? && q.status.value.finished
    ensures var q := Run(UpdatePod(p, create, ct), es);
            var r := Step(q, Housekeep(true));
            var s := UpdatePod(r, o, ct');
            && r.status.None? && AllExited(r.workers) && |s.h.past| == |p.h.past| + 1
            && s.status == Some(FRESH.(working := true)) && s.updates == Some(|r.workers|)
            && |s.workers| == |r.workers| + 1 && s.h.handled == [] && |s.h.generated| == 1
            && s.h.generated[0].kind.SyncPodWork? && s.h.generated[0].options == o.(kill := None)
  {
    var p1 := UpdatePod(p, create, ct);
    var q := Run(p1, es);
    var r := HousekeepPod(q, true);
    ReachableInv(p);
    UpdatePreserves(p, create, ct);
    CreateAsksToRestart(p, create, ct);
    RequestIsRemembered(p1, es);
    RunFromInv(p1, es);
    HousekeepPreserves(q, true);
    PurgeLeavesNothing(q);
    ForgottenPodStartsAfresh(r, o, ct');
  }

  lemma PurgeLeavesNothing(q: Pod)
    requires Inv(q) && AskedToRestart(q) && q.status.value.finished
    ensures var r := HousekeepPod(q, true);
            r.status.None? && AllExited(r.workers) && |r.h.past| == |q.h.past| + 1
  {
  }
}
