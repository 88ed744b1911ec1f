/** What the pod worker protocol guarantees in every run. */
module PodLifecycleTheorems {
  import opened Wrappers
  import opened PodLifecycle
  import opened PodLifecycleInvariant

  // ------------------------------------------------------ all pods of one kubelet

  /** All pods known to the workers, and whether `SyncKnownPods` has run once. */
  datatype Kubelet = Kubelet(podsSynced: bool, pods: map<string, Pod>)

  datatype KubeletEvent =
    | ForPod(uid: string, event: Event)
    | SyncKnownPods(desired: set<string>)

  function PodOf(k: Kubelet, uid: string): Pod {
    if uid in k.pods then k.pods[uid] else UNKNOWN
  }

  function KubeletStep(k: Kubelet, e: KubeletEvent): Kubelet {
    match e
    case ForPod(uid, ev) => if ev.Housekeep? then k else k.(pods := k.pods[uid := Step(PodOf(k, uid), ev)])
    case SyncKnownPods(desired) =>
      Kubelet(true, map uid | uid in k.pods :: HousekeepPod(k.pods[uid], uid in desired))
  }

  function KubeletRun(es: seq<KubeletEvent>): Kubelet {
    if es == [] then Kubelet(false, map[]) else KubeletStep(KubeletRun(es[..|es| - 1]), es[|es| - 1])
  }

  /** `ShouldPodContainersBeTerminating`. */
  predicate ShouldPodContainersBeTerminating(k: Kubelet, uid: string) {
    var p := PodOf(k, uid);
    if p.status.Some? then p.status.value.startedTerminating else k.podsSynced
  }

  /** `CouldHaveRunningContainers`. */
  predicate CouldHaveRunningContainers(k: Kubelet, uid: string) {
    var p := PodOf(k, uid);
    if p.status.Some? then !p.status.value.terminated else !k.podsSynced
  }

  /** No goroutine is running or holds sync work, and none is queued or held as undelivered. */
  ghost predicate NoSyncWork(p: Pod) {
    && (p.undelivered.Some? ==> !p.undelivered.value.kind.SyncPodWork?)
    && (forall i :: 0 <= i < |p.workers| ==>
          var w := p.workers[i];
          && (w.pc.Received? || w.pc.Running? || w.pc.Finishing? ==> !w.pc.work.kind.SyncPodWork?)
          && (!w.pc.Exited? ==> forall j :: 0 <= j < |w.queue| ==> !w.queue[j].kind.SyncPodWork?))
  }

  /** The per-pod view of a run of the whole kubelet. */
  function Project(es: seq<KubeletEvent>, uid: string): seq<Event> {
    if es == [] then []
    else
      var e := es[|es| - 1];
      var before := Project(es[..|es| - 1], uid);
      match e
      case ForPod(u, ev) => if u == uid && !ev.Housekeep? then before + [ev] else before
      case SyncKnownPods(desired) => before + [Housekeep(uid in desired)]
  }

  /** Pods do not interfere: each one's state depends on its own events and on housekeeping only. */
  lemma {:induction false} PodsAreIndependent(es: seq<KubeletEvent>, uid: string)
    ensures PodOf(KubeletRun(es), uid) == Run(UNKNOWN, Project(es, uid))
  {
    if es != [] {
      PodsAreIndependent(es[..|es| - 1], uid);
      var pes := Project(es, uid);
      if pes != Project(es[..|es| - 1], uid) {
        assert pes[..|pes| - 1] == Project(es[..|es| - 1], uid);
      }
    }
  }

  lemma PendingIsNotSync(h: History, pending: seq<Work>, st: Status)
    requires HistoryOk(h) && InLine(h, pending, st) && st.startedTerminating
    ensures forall i :: 0 <= i < |pending| ==> !pending[i].kind.SyncPodWork?
    ensures h.handled != [] && !Last(h.handled).kind.SyncPodWork?
  {
    var line := h.handled + pending;
    FollowsPhases(line, h.generated);
    forall i | 0 <= i < |pending| ensures !pending[i].kind.SyncPodWork? {
      assert Rank(line[|h.handled| - 1].kind) <= Rank(line[|h.handled| + i].kind);
    }
  }

  /** The live worker, once no pending item and not the last handled one is sync work. */
  lemma LiveWorkerHasNoSync(p: Pod, st: Status, w: Worker)
    requires Live(p, st) && Last(p.workers) == w
    requires forall i :: 0 <= i < |Pending(p)| ==> !Pending(p)[i].kind.SyncPodWork?
    requires p.h.handled != [] && !Last(p.h.handled).kind.SyncPodWork?
    ensures w.pc.Received? || w.pc.Running? || w.pc.Finishing? ==> !w.pc.work.kind.SyncPodWork?
    ensures forall j :: 0 <= j < |w.queue| ==> !w.queue[j].kind.SyncPodWork?
  {
    forall j | 0 <= j < |w.queue| ensures !w.queue[j].kind.SyncPodWork? {
      assert w.queue[j] == Pending(p)[|Held(w.pc)| + j];
    }
    if w.pc.Received? {
      assert Pending(p)[0] == w.pc.work;
    }
  }

  lemma UndeliveredIsPending(p: Pod)
    requires p.workers != [] && p.undelivered.Some?
    ensures Pending(p) != [] && Last(Pending(p)) == p.undelivered.value
  {
  }

  lemma StartedMeansNoSync(p: Pod, st: Status)
    requires HistoryOk(p.h) && Live(p, st) && st.startedTerminating
    ensures NoSyncWork(p)
  {
    PendingIsNotSync(p.h, Pending(p), st);
    LiveWorkerHasNoSync(p, st, Last(p.workers));
    if p.undelivered.Some? {
      UndeliveredIsPending(p);
    }
    assert forall i :: 0 <= i < |p.workers| - 1 ==> p.workers[i] == p.workers[..|p.workers| - 1][i];
  }

  lemma StartedMeansNoSyncWork(p: Pod)
    requires Inv(p) && p.status.Some? && p.status.value.startedTerminating
    ensures NoSyncWork(p)
  {
    if !p.status.value.finished {
      StartedMeansNoSync(p, p.status.value);
    }
  }

  /** Only the live worker is busy. */
  lemma BusyIsLive(p: Pod, i: nat)
    requires Inv(p) && i < |p.workers| && Busy(p.workers[i].pc)
    ensures i == |p.workers| - 1 && p.status.Some? && !p.status.value.finished && Live(p, p.status.value)
  {
    if p.status.None? || p.status.value.finished || i < |p.workers| - 1 {
      ExitedIdle(p, i, Receive);
    }
  }

  /** Once the workers report that a pod's containers should be terminating, or that it can have no
      running container, no `syncPod` for it is running, queued or held, in any run. */
  lemma NoSyncAfterTermination(es: seq<KubeletEvent>, uid: string)
    ensures var k := KubeletRun(es);
            ShouldPodContainersBeTerminating(k, uid) || !CouldHaveRunningContainers(k, uid)
            ==> NoSyncWork(PodOf(k, uid))
  {
    var k := KubeletRun(es);
    var p := PodOf(k, uid);
    PodsAreIndependent(es, uid);
    RunInv(Project(es, uid));
    if p.status.Some? && p.status.value.startedTerminating {
      StartedMeansNoSyncWork(p);
    }
  }

  // ------------------------------------------------- incarnations and workers

  function Count(b: bool): nat { if b then 1 else 0 }

  /** Some sequence of steps, in any order and with any outcomes, leads to `p`. */
  ghost predicate Reachable(p: Pod) {
    exists es :: Run(UNKNOWN, es) == p
  }

  lemma ReachableInv(p: Pod)
    requires Reachable(p)
    ensures Inv(p)
  {
    var es :| Run(UNKNOWN, es) == p;
    RunInv(es);
  }

  /** What each incarnation of a UID handles is sync work, then terminating work, then terminated
      work, taken in the order it was generated and never twice. */
  lemma IncarnationsArePhased(p: Pod)
    requires Reachable(p)
    ensures PhaseOrdered(p.h.handled) && Follows(p.h.handled, p.h.generated)
    ensures forall i :: 0 <= i < |p.h.past| ==> PhaseOrdered(p.h.past[i])
  {
    ReachableInv(p);
    FollowsPhases(p.h.handled, p.h.generated);
  }

  /** At most one worker of a UID is alive, and an incarnation starts at most one. */
  lemma AtMostOneWorker(p: Pod, i: nat, j: nat)
    requires Reachable(p)
    requires i < |p.workers| && j < |p.workers|
    requires !p.workers[i].pc.Exited? && !p.workers[j].pc.Exited?
    ensures i == j && p.updates == Some(i) && |p.workers| <= |p.h.past| + 1
  {
    ReachableInv(p);
    if i < |p.workers| - 1 { ExitedIdle(p, i, Receive); }
    if j < |p.workers| - 1 { ExitedIdle(p, j, Receive); }
  }

  /** An incarnation ends only when housekeeping purges a finished pod whose workers have all left. */
  lemma IncarnationEndsByPurge(p: Pod, e: Event)
    requires Reachable(p)
    requires Step(p, e).h.past != p.h.past || (p.status.Some? && Step(p, e).status.None?)
    ensures e.Housekeep? && p.status.Some? && p.status.value.finished
    ensures !e.known || p.status.value.restartRequested
    ensures Quiet(p) && Step(p, e).h.past == p.h.past + [p.h.handled] && Step(p, e).status.None?
  {
    ReachableInv(p);
    match e
    case Update(o, cacheTerminal) => UpdateKeepsPast(p, o, cacheTerminal);
    case Work(i, a) => WorkerKeepsStage(p, i, a);
    case Housekeep(known) =>
  }

  lemma DispatchShape(p: Pod, st: Status, kind: WorkType, o: UpdateOptions)
    ensures var q := Dispatch(p, st, kind, o);
            && q.status == Some(st.(working := true)) && q.h.past == p.h.past
            && |q.workers| == |p.workers| + Count(p.updates.None?)
  {
  }

  lemma UpdateShape(p: Pod, st: Status, o: UpdateOptions)
    ensures var q := UpdateUnfinished(p, st, o);
            && q.status.Some? && Stage(st) == Stage(q.status.value) && q.h.past == p.h.past
            && |p.workers| <= |q.workers| <= |p.workers| + Count(p.updates.None?)
  {
    var closed := p.(h := CloseRequested(p.h, o));
    if st.terminated {
      if !o.source.RuntimeOnly? { DispatchShape(closed, st, TerminatedPodWork, o.(kill := None)); }
    } else if st.terminating {
      var st2 := RegisterKill(st, o);
      DispatchShape(p, st2, TerminatingPodWork, WithGrace(o, st2.gracePeriod));
    } else {
      DispatchShape(closed, st, SyncPodWork, o.(kill := None));
    }
  }

  lemma UpdateKeepsPast(p: Pod, o: UpdateOptions, cacheTerminal: bool)
    ensures UpdatePod(p, o, cacheTerminal).h.past == p.h.past
    ensures p.status.Some? ==> UpdatePod(p, o, cacheTerminal).status.Some?
  {
    UpdateShape(p, BeginTermination(StatusFor(p, o, cacheTerminal), o), o);
  }

  lemma WorkerKeepsStage(p: Pod, i: nat, a: Action)
    ensures var q := WorkerStep(p, i, a);
            && q.h.past == p.h.past && |q.workers| == |p.workers| && q.status.Some? == p.status.Some?
            && (p.status.Some? ==> Stage(p.status.value) <= Stage(q.status.value))
  {
    if a.Complete? {
      CompleteKeepsStage(p, i);
    }
  }

  lemma CloseUpdatesShape(p: Pod)
    ensures var q := CloseUpdates(p); q.h == p.h && |q.workers| == |p.workers| && q.status == p.status
  {
  }

  lemma CompleteTerminatingShape(p: Pod, source: Source)
    ensures var q := CompleteTerminating(p, source);
            && q.h.past == p.h.past && q.workers == p.workers && q.status.Some? == p.status.Some?
            && (p.status.Some? ==> Stage(p.status.value) <= Stage(q.status.value))
  {
    if p.status.Some? {
      CloseAllNotifies(p.h, p.status.value.notify);
    }
  }

  lemma CompleteKeepsStage(p: Pod, i: nat)
    ensures var q := WorkerStep(p, i, Complete);
            && q.h.past == p.h.past && |q.workers| == |p.workers| && q.status.Some? == p.status.Some?
            && (p.status.Some? ==> Stage(p.status.value) <= Stage(q.status.value))
  {
    if i < |p.workers| && p.workers[i].pc.Finishing? {
      CloseUpdatesShape(SetPc(p, i, Exited));
      CompleteTerminatingShape(SetPc(p, i, Requeueing), p.workers[i].pc.work.options.source);
    }
  }

  /** A worker starts only for a pod without a status, and until the purge the stage never goes back,
      whatever arrives: a request to recreate a terminating pod does not restart it. */
  lemma NoRestartBeforePurge(p: Pod, e: Event)
    requires Reachable(p) && p.status.Some?
    ensures |Step(p, e).workers| == |p.workers|
    ensures Step(p, e).status.Some? ==> Stage(p.status.value) <= Stage(Step(p, e).status.value)
  {
    ReachableInv(p);
    match e
    case Update(o, cacheTerminal) => UpdateKeepsWorkers(p, o, cacheTerminal);
    case Work(i, a) => WorkerKeepsStage(p, i, a);
    case Housekeep(known) =>
  }

  lemma BeginKeepsStage(st: Status, o: UpdateOptions)
    requires StatusOk(st)
    ensures Stage(st) <= Stage(BeginTermination(st, o))
  {
    TerminationBegins(st, o);
  }

  lemma UnfinishedHasChannel(p: Pod)
    requires Inv(p) && p.status.Some? && !p.status.value.finished
    ensures p.updates.Some? && StatusOk(p.status.value)
  {
  }

  lemma UpdateKeepsWorkers(p: Pod, o: UpdateOptions, cacheTerminal: bool)
    requires Inv(p) && p.status.Some?
    ensures var q := UpdatePod(p, o, cacheTerminal);
            |q.workers| == |p.workers| && q.status.Some? && Stage(p.status.value) <= Stage(q.status.value)
  {
    var st := p.status.value;
    if !st.finished && !(st.terminating && o.updateType.SyncPodCreate?) {
      UnfinishedHasChannel(p);
      BeginKeepsStage(st, o);
      UpdateShape(p, BeginTermination(st, o), o);
    }
  }

  // --------------------------------------------------------- channel protocol

  /** No send ever meets a full, closed or missing channel, no worker channel is closed twice and no
      status is missing; and while a worker lives, `working` counts the one item queued or in flight. */
  lemma ChannelsAreSafe(p: Pod)
    requires Reachable(p)
    ensures p.fault.None?
    ensures p.status.Some? && !p.status.value.finished ==>
              && p.updates.Some? && p.updates.value < |p.workers|
              && var w := p.workers[p.updates.value];
                 !w.closed && |w.queue| + Count(Busy(w.pc)) == Count(p.status.value.working)
  {
    ReachableInv(p);
  }

  // ------------------------------------------------------------- no lost work

  /** Whenever an unfinished worker is idle nothing is left undelivered and the last item it handled
      is the latest one generated, however many updates were coalesced. */
  lemma NoLostWork(p: Pod)
    requires Reachable(p) && p.status.Some? && !p.status.value.finished && !p.status.value.working
    ensures p.undelivered.None? && p.h.handled != [] && p.h.generated != []
    ensures Last(p.h.handled) == Last(p.h.generated)
  {
    ReachableInv(p);
    assert Pending(p) == [];
    assert p.h.handled + Pending(p) == p.h.handled;
  }

  /** The handled items whose status read did not fail. */
  function Readable(handled: seq<Work>, skipped: set<nat>): seq<Work> {
    if handled == [] then []
    else
      var before := Readable(handled[..|handled| - 1], skipped);
      if Last(handled).serial in skipped then before else before + [Last(handled)]
  }

  lemma {:induction false} ReadableIsNotSkipped(handled: seq<Work>, skipped: set<nat>, i: nat)
    requires i < |Readable(handled, skipped)|
    ensures Readable(handled, skipped)[i].serial !in skipped
  {
    if i < |Readable(handled[..|handled| - 1], skipped)| {
      ReadableIsNotSkipped(handled[..|handled| - 1], skipped, i);
    }
  }

  /** Skipping an item that comes later does not change what was readable. */
  lemma {:induction false} ReadableIgnoresLater(handled: seq<Work>, skipped: set<nat>, k: nat)
    requires forall i :: 0 <= i < |handled| ==> handled[i].serial < k
    ensures Readable(handled, skipped + {k}) == Readable(handled, skipped)
  {
    if handled != [] {
      ReadableIgnoresLater(handled[..|handled| - 1], skipped, k);
    }
  }

  /** What was run is what was handled and readable; and only handled items were skipped, none of them
      known only to the runtime, since for those no status is read. */
  ghost predicate RanOk(h: History) {
    && h.ran == Readable(h.handled, h.skipped)
    && (forall k :: k in h.skipped ==> h.handled != [] && k <= Last(h.handled).serial)
    && (forall i :: 0 <= i < |h.pastRan| ==> PhaseOrdered(h.pastRan[i]))
    && (forall i :: 0 <= i < |h.handled| && h.handled[i].serial in h.skipped ==> h.handled[i].options.source.Config?)
  }

  /** The next item in line comes after every item handled. */
  lemma NextIsLater(p: Pod, st: Status, x: Work)
    requires Live(p, st) && Last(p.workers).pc == Received(x)
    ensures forall i :: 0 <= i < |p.h.handled| ==> p.h.handled[i].serial < x.serial
  {
    var line := p.h.handled + Pending(p);
    assert line[|p.h.handled|] == Pending(p)[0] == x;
    forall i | 0 <= i < |p.h.handled| ensures p.h.handled[i].serial < x.serial {
      assert line[i] == p.h.handled[i];
    }
  }

  lemma ReadableSnoc(handled: seq<Work>, skipped: set<nat>, x: Work)
    ensures Readable(handled + [x], skipped) ==
            Readable(handled, skipped) + (if x.serial in skipped then [] else [x])
  {
    var longer := handled + [x];
    assert longer[..|longer| - 1] == handled && Last(longer) == x;
  }

  /** No later item was skipped yet. */
  lemma LaterIsNotSkipped(h: History, x: Work)
    requires RanOk(h) && forall i :: 0 <= i < |h.handled| ==> h.handled[i].serial < x.serial
    ensures forall k :: k in h.skipped ==> k < x.serial
  {
    if h.handled != [] {
      assert h.handled[|h.handled| - 1].serial < x.serial;
    }
  }

  lemma CallKeepsRan(h: History, x: Work)
    requires RanOk(h) && forall i :: 0 <= i < |h.handled| ==> h.handled[i].serial < x.serial
    ensures RanOk(Call(h, x))
  {
    LaterIsNotSkipped(h, x);
    ReadableSnoc(h.handled, h.skipped, x);
    var handled := h.handled + [x];
    forall i | 0 <= i < |handled| && handled[i].serial in h.skipped ensures handled[i].options.source.Config? {
      assert i < |h.handled| && handled[i] == h.handled[i];
    }
  }

  lemma SkipKeepsRan(h: History, x: Work)
    requires x.options.source.Config? && RanOk(h)
    requires forall i :: 0 <= i < |h.handled| ==> h.handled[i].serial < x.serial
    ensures RanOk(Handle(h, x).(skipped := h.skipped + {x.serial}))
  {
    LaterIsNotSkipped(h, x);
    ReadableSnoc(h.handled, h.skipped + {x.serial}, x);
    ReadableIgnoresLater(h.handled, h.skipped, x.serial);
    var handled, skipped := h.handled + [x], h.skipped + {x.serial};
    forall i | 0 <= i < |handled| && handled[i].serial in skipped ensures handled[i].options.source.Config? {
      if i < |h.handled| {
        assert handled[i] == h.handled[i];
      }
    }
  }

  /** What concerns the items themselves, rather than the completion channels. */
  ghost predicate SameItems(h: History, g: History) {
    g.handled == h.handled && g.skipped == h.skipped && g.ran == h.ran && g.pastRan == h.pastRan
  }

  lemma ReceivedKeepsRan(p: Pod, st: Status, x: Work, a: Action)
    requires Live(p, st) && RanOk(p.h) && p.status == Some(st) && Last(p.workers).pc == Received(x)
    ensures RanOk(WorkerStep(p, |p.workers| - 1, a).h)
  {
    NextIsLater(p, st, x);
    CallKeepsRan(p.h, x);
    if x.options.source.Config? { SkipKeepsRan(p.h, x); }
    if a.Start? {
      StartEffect(p, st, x);
    }
  }

  lemma CompleteKeepsItems(p: Pod, source: Source)
    ensures SameItems(p.h, CompleteTerminating(p, source).h)
  {
    if p.status.Some? {
      CloseAllNotifies(p.h, p.status.value.notify);
    }
  }

  lemma OthersKeepItems(p: Pod, i: nat, a: Action)
    requires i < |p.workers| && !p.workers[i].pc.Received?
    ensures SameItems(p.h, WorkerStep(p, i, a).h)
  {
    if p.workers[i].pc.Finishing? {
      CloseUpdatesShape(SetPc(p, i, Exited));
      CompleteKeepsItems(SetPc(p, i, Requeueing), p.workers[i].pc.work.options.source);
    }
  }

  lemma WorkerKeepsRan(p: Pod, i: nat, a: Action)
    requires Inv(p) && RanOk(p.h)
    ensures RanOk(WorkerStep(p, i, a).h)
  {
    if i < |p.workers| {
      if p.workers[i].pc.Received? {
        BusyIsLive(p, i);
        ReceivedKeepsRan(p, p.status.value, p.workers[i].pc.work, a);
      } else {
        OthersKeepItems(p, i, a);
      }
    }
  }

  lemma DispatchKeepsItems(p: Pod, st: Status, kind: WorkType, o: UpdateOptions)
    ensures SameItems(p.h, Dispatch(p, st, kind, o).h)
  {
  }

  lemma UnfinishedKeepsItems(p: Pod, st: Status, o: UpdateOptions)
    ensures SameItems(p.h, UpdateUnfinished(p, st, o).h)
  {
    var closed := p.(h := CloseRequested(p.h, o));
    DispatchKeepsItems(closed, st, TerminatedPodWork, o.(kill := None));
    DispatchKeepsItems(closed, st, SyncPodWork, o.(kill := None));
    var st2 := RegisterKill(st, o);
    DispatchKeepsItems(p, st2, TerminatingPodWork, WithGrace(o, st2.gracePeriod));
  }

  lemma UpdateKeepsItems(p: Pod, o: UpdateOptions, cacheTerminal: bool)
    ensures SameItems(p.h, UpdatePod(p, o, cacheTerminal).h)
  {
    UnfinishedKeepsItems(p, BeginTermination(StatusFor(p, o, cacheTerminal), o), o);
  }

  /** In every run, a sync function was called for exactly the handled items whose status read did not
      fail, in order. */
  lemma {:induction false} RanIsReadable(es: seq<Event>)
    ensures RanOk(Run(UNKNOWN, es).h)
  {
    if es != [] {
      var p, e := Run(UNKNOWN, es[..|es| - 1]), es[|es| - 1];
      RanIsReadable(es[..|es| - 1]);
      RunInv(es[..|es| - 1]);
      match e
      case Update(o, cacheTerminal) => UpdateKeepsItems(p, o, cacheTerminal);
      case Work(i, a) => WorkerKeepsRan(p, i, a);
      case Housekeep(known) => PurgeKeepsRan(p, known);
    }
  }

  lemma {:induction false} ReadableIsPhased(handled: seq<Work>, skipped: set<nat>)
    requires PhaseOrdered(handled)
    ensures PhaseOrdered(Readable(handled, skipped))
    ensures forall i :: 0 <= i < |Readable(handled, skipped)| ==>
              handled != [] && Rank(Readable(handled, skipped)[i].kind) <= Rank(Last(handled).kind)
  {
    if handled != [] {
      var rest := handled[..|handled| - 1];
      ReadableIsPhased(rest, skipped);
      assert rest != [] ==> Rank(Last(rest).kind) <= Rank(Last(handled).kind);
    }
  }

  lemma PurgeKeepsRan(p: Pod, known: bool)
    requires Inv(p) && RanOk(p.h)
    ensures RanOk(HousekeepPod(p, known).h)
  {
    FollowsPhases(p.h.handled, p.h.generated);
    ReadableIsPhased(p.h.handled, p.h.skipped);
  }

  /** The sync functions called in each incarnation, present and past, are for sync work, then for
      terminating work, then for terminated work. */
  lemma CallsArePhased(p: Pod)
    requires Reachable(p)
    ensures PhaseOrdered(p.h.ran)
    ensures forall i :: 0 <= i < |p.h.pastRan| ==> PhaseOrdered(p.h.pastRan[i])
  {
    var es :| Run(UNKNOWN, es) == p;
    RanIsReadable(es);
    IncarnationsArePhased(p);
    ReadableIsPhased(p.h.handled, p.h.skipped);
  }

  /** An idle worker has called a sync function for the latest item exactly when it could read the pod
      status for it. */
  lemma IdleRanLatest(p: Pod)
    requires Reachable(p) && p.status.Some? && !p.status.value.finished && !p.status.value.working
    ensures p.h.generated != []
    ensures (p.h.ran != [] && Last(p.h.ran) == Last(p.h.generated)) <==> Last(p.h.generated).serial !in p.h.skipped
  {
    NoLostWork(p);
    var es :| Run(UNKNOWN, es) == p;
    RanIsReadable(es);
    if p.h.ran != [] { ReadableIsNotSkipped(p.h.handled, p.h.skipped, |p.h.ran| - 1); }
  }

  /** The read can fail: a worker can be idle on an item for which no sync function was called. */
  lemma IdleWithoutRunning()
    ensures exists p :: Reachable(p) && p.status.Some? && !p.status.value.finished && !p.status.value.working
                        && p.h.generated != [] && p.h.ran == []
  {
    var o := UpdateOptions(SyncPodCreate, Config(false, false, None, None), None);
    var w := Work.Work(0, SyncPodWork, o);
    var h := UNKNOWN.h.(generated := [w]);
    var p1 := Pod(Some(FRESH.(working := true)), Some(0), None, [Worker([w], false, Waiting)], None, h);
    var p2 := p1.(workers := [Worker([], false, Received(w))]);
    var p3 := p1.(workers := [Worker([], false, Requeueing)], h := h.(handled := [w], skipped := {0}));
    var p4 := p3.(workers := [Worker([], false, Waiting)], status := Some(FRESH));
    FirstUpdate(o, p1);
    assert [w][1..] == [];
    Reaches(p1, Event.Work(0, Receive), p2);
    Reaches(p2, Event.Work(0, ReadFails), p3);
    Reaches(p3, Event.Work(0, QueueNext), p4);
  }

  lemma FirstUpdate(o: UpdateOptions, p: Pod)
    requires o == UpdateOptions(SyncPodCreate, Config(false, false, None, None), None)
    requires var w := Work.Work(0, SyncPodWork, o);
             p == Pod(Some(FRESH.(working := true)), Some(0), None, [Worker([w], false, Waiting)], None,
                      UNKNOWN.h.(generated := [w]))
    ensures Reachable(p)
  {
    assert Run(UNKNOWN, []) == UNKNOWN;
    Reaches(UNKNOWN, Update(o, false), p);
  }

  lemma Reaches(p: Pod, e: Event, q: Pod)
    requires Reachable(p) && Step(p, e) == q
    ensures Reachable(q)
  {
    var es :| Run(UNKNOWN, es) == p;
    assert (es + [e])[..|es|] == es;
    assert Run(UNKNOWN, es + [e]) == q;
  }
}
