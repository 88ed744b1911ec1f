/** The kubelet pod worker protocol for one pod UID, as a step system.

    A `Pod` holds what `podWorkers` keeps under one UID (status, channel, undelivered work),
    every worker goroutine ever started for it together with its capacity-1 channel, and a
    history of the work generated and handled.  Each atomic section of the source (a body that
    holds `podLock`, a channel receive, the start and the return of a sync function) is one step.
 */
module PodLifecycle {
  import opened Wrappers

  datatype UpdateType = SyncPodSync | SyncPodUpdate | SyncPodCreate | SyncPodKill

  datatype WorkType = SyncPodWork | TerminatingPodWork | TerminatedPodWork

  /** Where the pod of an update comes from.  `RuntimeOnly` is an update with `RunningPod` set and
      no `Pod`; an update with both is the same as one with `Pod` alone. */
  datatype Source =
    | Config(deleting: bool, terminalPhase: bool, deletionGrace: Option<int>, specGrace: Option<int>)
    | RuntimeOnly

  datatype KillOptions = KillOptions(completed: Option<nat>, evict: bool, statusFn: Option<nat>, grace: Option<int>)

  datatype UpdateOptions = UpdateOptions(updateType: UpdateType, source: Source, kill: Option<KillOptions>)

  /** A work item; `serial` is its position among the items generated for this incarnation. */
  datatype Work = Work(serial: nat, kind: WorkType, options: UpdateOptions)

  /** `podSyncStatus`, with timestamps reduced to set/unset. */
  datatype Status = Status(
    working: bool,
    terminating: bool,
    startedTerminating: bool,
    deleted: bool,
    gracePeriod: int,
    evicted: bool,
    terminated: bool,
    finished: bool,
    restartRequested: bool,
    notify: seq<nat>,
    statusFns: seq<nat>)

  const FRESH := Status(false, false, false, false, 0, false, false, false, false, [], [])

  /** A pod first seen in a terminal phase with nothing running is recorded as already finished. */
  const BORN_FINISHED := FRESH.(terminating := true, startedTerminating := true, terminated := true, finished := true)

  /** Where a worker goroutine is in `managePodLoop`. */
  datatype Pc =
    | Waiting                 // blocked on its channel
    | Received(work: Work)    // holds an item, has not yet read the pod status cache
    | Running(work: Work)     // inside a sync function
    | Finishing(work: Work)   // a terminating or terminated sync function returned without error
    | Requeueing              // about to call completeWork
    | Exited

  /** A goroutine and the channel it reads. */
  datatype Worker = Worker(queue: seq<Work>, closed: bool, pc: Pc)

  /** Ways in which the source would panic, or block for ever while holding the lock. */
  datatype Fault = SendOnMissing | SendOnClosed | SendOnFull | CloseOfClosed | NilStatus

  /** What happened so far.  `generated`, `handled`, `skipped` and `ran` describe the current incarnation;
      `past` keeps what earlier incarnations handled and `pastRan` what they ran. */
  datatype History = History(
    generated: seq<Work>,
    handled: seq<Work>,
    skipped: set<nat>,        // serials of items whose status read failed
    ran: seq<Work>,           // items a sync function was called for
    past: seq<seq<Work>>,
    pastRan: seq<seq<Work>>,
    notified: set<nat>,       // completion channels closed
    renotified: bool)         // some completion channel was closed twice

  datatype Pod = Pod(
    status: Option<Status>,
    updates: Option<nat>,     // podUpdates[uid]: which worker's channel
    undelivered: Option<Work>,
    workers: seq<Worker>,
    fault: Option<Fault>,
    h: History)

  const UNKNOWN := Pod(None, None, None, [], None, History([], [], {}, [], [], [], {}, false))

  datatype Action = Receive | ReadFails | Start | Return(ok: bool) | Complete | QueueNext

  datatype Event =
    | Update(options: UpdateOptions, cacheTerminal: bool)
    | Work(worker: nat, action: Action)
    | Housekeep(known: bool)

  // ---------------------------------------------------------------- UpdatePod

  function OrElse(o: Option<int>, current: int): (r: int) {
    if o.Some? && (current == 0 || o.value < current) then o.value else current
  }

  /** `calculateEffectiveGracePeriod`. */
  function EffectiveGrace(recorded: int, source: Source, override: Option<int>): (r: int)
    ensures r >= 1
  {
    var afterApi := if source.Config? then OrElse(source.deletionGrace, recorded) else recorded;
    var afterKill := OrElse(override, afterApi);
    var g := if afterKill == 0 && source.Config? && source.specGrace.Some? then source.specGrace.value else afterKill;
    if g < 1 then 1 else g
  }

  function FirstStatus(source: Source, cacheTerminal: bool): Status {
    if source.Config? && source.terminalPhase && cacheTerminal then BORN_FINISHED else FRESH
  }

  /** The transition to terminating, if this update causes one. */
  function BeginTermination(st: Status, o: UpdateOptions): Status {
    if st.terminating then st
    else if o.source.RuntimeOnly? || o.source.deleting then st.(deleted := true, terminating := true)
    else if o.source.terminalPhase then st.(terminating := true)
    else if o.updateType.SyncPodKill? then
      st.(terminating := true, evicted := st.evicted || (o.kill.Some? && o.kill.value.evict))
    else st
  }

  function KillOf(o: UpdateOptions): KillOptions {
    if o.kill.Some? then o.kill.value else KillOptions(None, false, None, None)
  }

  /** Registers the completion channel and status function of a kill and records the grace period. */
  function RegisterKill(st: Status, o: UpdateOptions): Status {
    var k := KillOf(o);
    st.(notify := st.notify + ToSeq(k.completed),
        statusFns := st.statusFns + ToSeq(k.statusFn),
        gracePeriod := EffectiveGrace(st.gracePeriod, o.source, k.grace))
  }

  function CloseCompletion(h: History, ch: nat): History {
    h.(notified := h.notified + {ch}, renotified := h.renotified || ch in h.notified)
  }

  function CloseRequested(h: History, o: UpdateOptions): History {
    if o.kill.Some? && o.kill.value.completed.Some? then CloseCompletion(h, o.kill.value.completed.value) else h
  }

  function CloseAll(h: History, chs: seq<nat>): History
    decreases chs
  {
    if chs == [] then h else CloseAll(CloseCompletion(h, chs[0]), chs[1..])
  }

  /** `podUpdates[uid] <- work`, with the failures a Go channel send can have. */
  function Send(p: Pod, work: Work): Pod {
    if p.updates.None? || p.updates.value >= |p.workers| then p.(fault := Some(SendOnMissing))
    else
      var c := p.updates.value;
      var w := p.workers[c];
      if w.closed then p.(fault := Some(SendOnClosed))
      else if w.queue != [] then p.(fault := Some(SendOnFull))
      else p.(workers := p.workers[c := w.(queue := [work])])
  }

  function EnsureWorker(p: Pod): Pod {
    if p.updates.Some? then p
    else p.(updates := Some(|p.workers|), workers := p.workers + [Worker([], false, Waiting)])
  }

  /** The tail of `UpdatePod`: start a worker if there is none, then send the work or hold it. */
  function Dispatch(p: Pod, st: Status, kind: WorkType, o: UpdateOptions): Pod {
    var work := Work.Work(|p.h.generated|, kind, o);
    var q := EnsureWorker(p).(h := p.h.(generated := p.h.generated + [work]));
    if st.working then q.(status := Some(st), undelivered := Some(work))
    else Send(q.(status := Some(st.(working := true))), work)
  }

  /** The status an update finds or creates. */
  function StatusFor(p: Pod, o: UpdateOptions, cacheTerminal: bool): Status {
    if p.status.Some? then p.status.value else FirstStatus(o.source, cacheTerminal)
  }

  function UpdatePod(p: Pod, o: UpdateOptions, cacheTerminal: bool): Pod {
    if o.source.RuntimeOnly? && !o.updateType.SyncPodKill? then p else UpdateKnown(p, StatusFor(p, o, cacheTerminal), o)
  }

  function UpdateKnown(p: Pod, st: Status, o: UpdateOptions): Pod {
    if st.terminating && o.updateType.SyncPodCreate? then p.(status := Some(st.(restartRequested := true)))
    else if st.finished then p.(status := Some(st))
    else UpdateUnfinished(p, BeginTermination(st, o), o)
  }

  /** The options of terminating work always carry the recorded grace period. */
  function WithGrace(o: UpdateOptions, grace: int): UpdateOptions {
    o.(kill := Some(KillOf(o).(grace := Some(grace))))
  }

  function DispatchKill(p: Pod, st: Status, o: UpdateOptions): Pod {
    Dispatch(p, RegisterKill(st, o), TerminatingPodWork, WithGrace(o, RegisterKill(st, o).gracePeriod))
  }

  /** Outside the terminating stage a kill completes at once and its options are dropped. */
  function DispatchClosing(p: Pod, st: Status, kind: WorkType, o: UpdateOptions): Pod {
    Dispatch(p.(h := CloseRequested(p.h, o)), st, kind, o.(kill := None))
  }

  function UpdateUnfinished(p: Pod, st: Status, o: UpdateOptions): Pod {
    if st.terminated then
      if o.source.RuntimeOnly? then p.(status := Some(st)) else DispatchClosing(p, st, TerminatedPodWork, o)
    else if st.terminating then DispatchKill(p, st, o)
    else DispatchClosing(p, st, SyncPodWork, o)
  }

  // ------------------------------------------------------------ managePodLoop

  /** `acknowledgeTerminating`. */
  function Acknowledge(p: Pod): Pod {
    if p.status.Some? && p.status.value.terminating
    then p.(status := Some(p.status.value.(startedTerminating := true)))
    else p
  }

  /** `completeTerminating`. */
  function CompleteTerminating(p: Pod, source: Source): Pod {
    var work := Work.Work(|p.h.generated|, TerminatedPodWork, UpdateOptions(SyncPodSync, source, None));
    var q := if p.status.Some?
             then p.(status := Some(p.status.value.(terminated := true, notify := [], statusFns := [])),
                     h := CloseAll(p.h, p.status.value.notify))
             else p;
    q.(undelivered := Some(work), h := q.h.(generated := q.h.generated + [work]))
  }

  /** Closes `podUpdates[uid]` if present and forgets the channel and the undelivered work. */
  function CloseUpdates(p: Pod): Pod {
    var q := if p.updates.None? || p.updates.value >= |p.workers| then p
             else
               var c := p.updates.value;
               if p.workers[c].closed then p.(fault := Some(CloseOfClosed))
               else p.(workers := p.workers[c := p.workers[c].(closed := true)]);
    q.(updates := None, undelivered := None)
  }

  /** `completeTerminatingRuntimePod`. */
  function CompleteTerminatingRuntimePod(p: Pod): Pod {
    var q := CloseUpdates(p);
    if q.status.Some? then q.(status := Some(q.status.value.(terminated := true, finished := true, working := false)))
    else q
  }

  /** `completeTerminated`. */
  function CompleteTerminated(p: Pod): Pod {
    var q := CloseUpdates(p);
    if q.status.Some? then q.(status := Some(q.status.value.(finished := true, working := false))) else q
  }

  /** `completeWorkQueueNext`. */
  function CompleteWorkQueueNext(p: Pod): Pod {
    if p.undelivered.Some? then Send(p, p.undelivered.value).(undelivered := None)
    else if p.status.Some? then p.(status := Some(p.status.value.(working := false)))
    else p.(fault := Some(NilStatus))
  }

  function SetPc(p: Pod, i: nat, pc: Pc): Pod
    requires i < |p.workers|
  {
    p.(workers := p.workers[i := p.workers[i].(pc := pc)])
  }

  function Handle(h: History, w: Work): History {
    h.(handled := h.handled + [w])
  }

  /** A sync function is called for an item. */
  function Call(h: History, w: Work): History {
    Handle(h, w).(ran := h.ran + [w])
  }

  /** Worker `i` performs one step of `managePodLoop`; a step that is not its next one does nothing. */
  function WorkerStep(p: Pod, i: nat, a: Action): Pod {
    if i >= |p.workers| then p
    else
      var w := p.workers[i];
      match (w.pc, a)
      case (Waiting, Receive) =>
        if w.queue != [] then p.(workers := p.workers[i := w.(queue := w.queue[1..], pc := Received(w.queue[0]))])
        else if w.closed then SetPc(p, i, Exited)
        else p
      case (Received(x), ReadFails) =>
        // a runtime-only item does not read the cache
        if x.options.source.RuntimeOnly? then p
        else SetPc(p, i, Requeueing).(h := Handle(p.h, x).(skipped := p.h.skipped + {x.serial}))
      case (Received(x), Start) =>
        var q := SetPc(p, i, Running(x)).(h := Call(p.h, x));
        if x.kind.TerminatingPodWork? then Acknowledge(q) else q
      case (Running(x), Return(ok)) =>
        SetPc(p, i, if ok && !x.kind.SyncPodWork? then Finishing(x) else Requeueing)
      case (Finishing(x), Complete) =>
        if x.kind.TerminatedPodWork? then CompleteTerminated(SetPc(p, i, Exited))
        else if x.options.source.RuntimeOnly? then CompleteTerminatingRuntimePod(SetPc(p, i, Exited))
        else CompleteTerminating(SetPc(p, i, Requeueing), x.options.source)
      case (Requeueing, QueueNext) => CompleteWorkQueueNext(SetPc(p, i, Waiting))
      case _ => p
  }

  // ------------------------------------------------------------- SyncKnownPods

  /** `removeTerminatedWorker`, as `SyncKnownPods` calls it for one UID. */
  function HousekeepPod(p: Pod, known: bool): Pod {
    if p.status.Some? && (!known || p.status.value.restartRequested) && p.status.value.finished
    then p.(status := None, updates := None, undelivered := None,
            h := p.h.(generated := [], handled := [], skipped := {}, ran := [],
                      past := p.h.past + [p.h.handled], pastRan := p.h.pastRan + [p.h.ran]))
    else p
  }

  function Step(p: Pod, e: Event): Pod {
    match e
    case Update(o, cacheTerminal) => UpdatePod(p, o, cacheTerminal)
    case Work(i, a) => WorkerStep(p, i, a)
    case Housekeep(known) => HousekeepPod(p, known)
  }

  /** The pod after a sequence of steps, in any order and with any outcomes. */
  function Run(p: Pod, es: seq<Event>): Pod {
    if es == [] then p else Step(Run(p, es[..|es| - 1]), es[|es| - 1])
  }
}
