/** `podWorkers`: the maps kept under `podLock` and the methods that change them in place.

    Each method refines one step of `PodLifecycle` for its UID and leaves every other UID alone; the
    preconditions of `SendWork` and `CloseWorker` are what a Go channel needs not to panic or block.
 */
module PodWorkers {
  import opened Wrappers
  import opened PodLifecycle
  import opened PodLifecycleInvariant
  import T = PodLifecycleTheorems
  import G = PodTermination

  datatype WorkerState = SyncPod | TerminatingPod | TerminatedPod | TerminatedAndRecreatedPod

  function StateOf(st: Status): WorkerState {
    if st.terminated then (if st.restartRequested then TerminatedAndRecreatedPod else TerminatedPod)
    else if st.terminating then TerminatingPod
    else SyncPod
  }

  /** The states of all pods but the rest. */
  ghost predicate StatesOf(statuses: map<string, Status>, rest: set<string>, workers: map<string, WorkerState>) {
    workers.Keys == statuses.Keys - rest && forall u :: u in workers ==> workers[u] == StateOf(statuses[u])
  }

  lemma OneMoreState(statuses: map<string, Status>, rest: set<string>, workers: map<string, WorkerState>, uid: string)
    requires StatesOf(statuses, rest, workers) && uid in rest && uid in statuses
    ensures StatesOf(statuses, rest - {uid}, workers[uid := StateOf(statuses[uid])])
  {
  }

  class PodWorkers {
    var podsSynced: bool
    var podSyncStatuses: map<string, Status>
    var podUpdates: map<string, nat>
    var lastUndelivered: map<string, Work>
    /** Every goroutine started for a UID, with the channel it reads. */
    var goroutines: map<string, seq<Worker>>
    /** A record of what was generated, handled and notified. */
    var histories: map<string, History>

    function Workers(uid: string): seq<Worker>
      reads this
    {
      if uid in goroutines then goroutines[uid] else []
    }

    function HistoryOf(uid: string): History
      reads this
    {
      if uid in histories then histories[uid] else UNKNOWN.h
    }

    /** What the maps say about one pod. */
    function View(uid: string): Pod
      reads this
    {
      Pod(if uid in podSyncStatuses then Some(podSyncStatuses[uid]) else None,
          if uid in podUpdates then Some(podUpdates[uid]) else None,
          if uid in lastUndelivered then Some(lastUndelivered[uid]) else None,
          Workers(uid), None, HistoryOf(uid))
    }

    ghost predicate Valid()
      reads this
    {
      forall uid :: Inv(View(uid))
    }

    /** A change that keeps the invariant of one pod and touches no other keeps all of them. */
    twostate lemma KeepsValid(uid: string)
      requires old(Valid()) && Inv(View(uid))
      requires forall u :: u != uid ==> View(u) == old(View(u))
      ensures Valid()
    {
      forall u ensures Inv(View(u)) {
        if u != uid { assert View(u) == old(View(u)); }
      }
    }

    /** A send on this UID's channel would find it open and empty. */
    ghost predicate CanSend(uid: string)
      reads this
    {
      uid in podUpdates && podUpdates[uid] < |Workers(uid)|
      && !Workers(uid)[podUpdates[uid]].closed && Workers(uid)[podUpdates[uid]].queue == []
    }

    constructor ()
      ensures Valid() && !podsSynced
      ensures forall uid :: View(uid) == UNKNOWN
    {
      podsSynced := false;
      podSyncStatuses, podUpdates, lastUndelivered, goroutines, histories := map[], map[], map[], map[], map[];
      new;
      assert forall uid :: View(uid) == UNKNOWN;
      assert Inv(UNKNOWN);
    }

    method SetStatus(uid: string, status: Status)
      modifies this`podSyncStatuses
      ensures View(uid) == old(View(uid)).(status := Some(status))
      ensures forall u :: u != uid ==> View(u) == old(View(u))
    {
      podSyncStatuses := podSyncStatuses[uid := status];
    }

    method SetHistory(uid: string, h: History)
      modifies this`histories
      ensures View(uid) == old(View(uid)).(h := h)
      ensures forall u :: u != uid ==> View(u) == old(View(u))
    {
      histories := histories[uid := h];
    }

    method SetWorker(uid: string, i: nat, w: Worker)
      requires i < |Workers(uid)|
      modifies this`goroutines
      ensures View(uid) == old(View(uid)).(workers := old(Workers(uid))[i := w])
      ensures forall u :: u != uid ==> View(u) == old(View(u))
    {
      goroutines := goroutines[uid := goroutines[uid][i := w]];
    }

    method Hold(uid: string, work: Work)
      modifies this`lastUndelivered
      ensures View(uid) == old(View(uid)).(undelivered := Some(work))
      ensures forall u :: u != uid ==> View(u) == old(View(u))
    {
      lastUndelivered := lastUndelivered[uid := work];
    }

    /** `podUpdates[uid] <- work`. */
    method SendWork(uid: string, work: Work)
      requires CanSend(uid)
      modifies this`goroutines
      ensures View(uid) == Send(old(View(uid)), work)
      ensures forall u :: u != uid ==> View(u) == old(View(u))
    {
      var c := podUpdates[uid];
      SetWorker(uid, c, goroutines[uid][c].(queue := [work]));
    }

    /** Starts a worker goroutine unless the UID has a channel. */
    method StartWorker(uid: string)
      modifies this`goroutines, this`podUpdates
      ensures View(uid) == EnsureWorker(old(View(uid)))
      ensures forall u :: u != uid ==> View(u) == old(View(u))
    {
      if uid !in podUpdates {
        podUpdates := podUpdates[uid := |Workers(uid)|];
        goroutines := goroutines[uid := Workers(uid) + [Worker([], false, Waiting)]];
      }
    }

    /** The tail of `UpdatePod`. */
    method DispatchWork(uid: string, status: Status, kind: WorkType, options: UpdateOptions)
      requires uid in podUpdates && !status.working ==> CanSend(uid)
      modifies this
      ensures View(uid) == Dispatch(old(View(uid)), status, kind, options)
      ensures forall u :: u != uid ==> View(u) == old(View(u))
      ensures podsSynced == old(podsSynced)
    {
      var h := HistoryOf(uid);
      var work := Work.Work(|h.generated|, kind, options);
      StartWorker(uid);
      SetHistory(uid, h.(generated := h.generated + [work]));
      if !status.working {
        SetStatus(uid, status.(working := true));
        SendWork(uid, work);
        return;
      }
      SetStatus(uid, status);
      Hold(uid, work);
    }

    /** Closes the completion channel of a request, if it has one. */
    method CloseRequest(uid: string, options: UpdateOptions)
      modifies this`histories
      ensures View(uid) == old(View(uid)).(h := CloseRequested(old(View(uid)).h, options))
      ensures forall u :: u != uid ==> View(u) == old(View(u))
    {
      if options.kill.Some? && options.kill.value.completed.Some? {
        SetHistory(uid, CloseCompletion(HistoryOf(uid), options.kill.value.completed.value));
      }
    }

    method CloseAndDispatch(uid: string, status: Status, kind: WorkType, options: UpdateOptions)
      requires uid in podUpdates && !status.working ==> CanSend(uid)
      modifies this
      ensures View(uid) == DispatchClosing(old(View(uid)), status, kind, options)
      ensures forall u :: u != uid ==> View(u) == old(View(u))
      ensures podsSynced == old(podsSynced)
    {
      CloseRequest(uid, options);
      DispatchWork(uid, status, kind, options.(kill := None));
    }

    /** Records a kill in the status and puts the effective grace period into its options. */
    method Register(before: Status, options: UpdateOptions) returns (status: Status, out: UpdateOptions)
      ensures status == RegisterKill(before, options) && out == WithGrace(options, status.gracePeriod)
      ensures status.gracePeriod >= 1 && out.kill.Some? && out.kill.value.grace == Some(status.gracePeriod)
      ensures before.gracePeriod >= 1 && G.NonZero(G.Overrides(options)) ==>
                status.gracePeriod == G.AtLeastOne(G.Least(before.gracePeriod, G.Overrides(options)))
      ensures status.notify == before.notify + G.Channel(options)
      ensures options.kill.Some? && options.kill.value.statusFn.Some? ==>
                status.statusFns != [] && Last(status.statusFns) == options.kill.value.statusFn.value
    {
      status := RegisterRequest(before, options);
      out := WithGrace(options, status.gracePeriod);
      G.KillIsRegistered(before, options);
    }

    method RegisterRequest(before: Status, options: UpdateOptions) returns (status: Status)
      ensures status == RegisterKill(before, options)
    {
      var kill := if options.kill.Some? then options.kill.value else KillOptions(None, false, None, None);
      var notify, statusFns := before.notify, before.statusFns;
      if kill.completed.Some? {
        notify := notify + [kill.completed.value];
      }
      if kill.statusFn.Some? {
        statusFns := statusFns + [kill.statusFn.value];
      }
      assert notify == before.notify + ToSeq(kill.completed);
      assert statusFns == before.statusFns + ToSeq(kill.statusFn);
      var grace := EffectiveGrace(before.gracePeriod, options.source, kill.grace);
      status := before.(notify := notify, statusFns := statusFns, gracePeriod := grace);
    }

    method RegisterAndDispatch(uid: string, status: Status, options: UpdateOptions)
      requires uid in podUpdates && !status.working ==> CanSend(uid)
      modifies this
      ensures View(uid) == DispatchKill(old(View(uid)), status, options)
      ensures forall u :: u != uid ==> View(u) == old(View(u))
      ensures podsSynced == old(podsSynced)
    {
      var st, out := Register(status, options);
      DispatchWork(uid, st, TerminatingPodWork, out);
    }

    /** The transition to terminating, if this update causes one. */
    method Transition(before: Status, options: UpdateOptions) returns (status: Status)
      ensures status == BeginTermination(before, options)
      ensures before.terminating ==> status == before
      ensures !before.terminating ==>
                var gone := options.source.RuntimeOnly? || options.source.deleting;
                var done := options.source.Config? && options.source.terminalPhase;
                && (status.terminating <==> gone || done || options.updateType.SyncPodKill?)
                && (status.deleted <==> before.deleted || gone)
                && (status.evicted <==> before.evicted || (status.terminating && !gone && !done
                                                           && options.kill.Some? && options.kill.value.evict))
      ensures status.deleted != before.deleted || status.evicted != before.evicted ==> status.terminating
      ensures !before.deleted && !before.evicted ==> !(status.deleted && status.evicted)
    {
      status := before;
      if !status.terminating {
        if options.source.RuntimeOnly? || options.source.deleting {
          status := status.(deleted := true, terminating := true);
        } else if options.source.terminalPhase {
          status := status.(terminating := true);
        } else if options.updateType.SyncPodKill? {
          if options.kill.Some? && options.kill.value.evict {
            status := status.(evicted := true);
          }
          status := status.(terminating := true);
        }
      }
    }

    /** `UpdatePod` for a status that is not finished. */
    method UpdateTracked(uid: string, status: Status, options: UpdateOptions)
      requires uid in podUpdates && !status.working ==> CanSend(uid)
      modifies this
      ensures View(uid) == UpdateUnfinished(old(View(uid)), status, options)
      ensures forall u :: u != uid ==> View(u) == old(View(u))
      ensures podsSynced == old(podsSynced)
    {
      if status.terminated {
        if options.source.RuntimeOnly? {
          SetStatus(uid, status);
          return;
        }
        CloseAndDispatch(uid, status, TerminatedPodWork, options);
      } else if status.terminating {
        RegisterAndDispatch(uid, status, options);
      } else {
        CloseAndDispatch(uid, status, SyncPodWork, options);
      }
    }

    method UpdateLocked(uid: string, options: UpdateOptions, cacheTerminal: bool)
      requires Inv(View(uid))
      modifies this
      ensures View(uid) == PodLifecycle.UpdatePod(old(View(uid)), options, cacheTerminal)
      ensures forall u :: u != uid ==> View(u) == old(View(u))
      ensures podsSynced == old(podsSynced)
    {
      var runtimeOnly := options.source.RuntimeOnly?;
      if runtimeOnly && !options.updateType.SyncPodKill? {
        return;
      }
      var status := FRESH;
      if uid in podSyncStatuses {
        status := podSyncStatuses[uid];
      } else if !runtimeOnly && options.source.terminalPhase && cacheTerminal {
        status := BORN_FINISHED;
      }
      if status.terminating && options.updateType.SyncPodCreate? {
        SetStatus(uid, status.(restartRequested := true));
      } else if status.finished {
        SetStatus(uid, status);
      } else {
        assert uid in podUpdates && !status.working ==> CanSend(uid);
        var st := Transition(status, options);
        UpdateTracked(uid, st, options);
      }
    }

    /** `UpdatePod`: the step of the protocol for this UID, and nothing else. */
    method UpdatePod(uid: string, options: UpdateOptions, cacheTerminal: bool)
      requires Valid()
      modifies this
      ensures Valid() && podsSynced == old(podsSynced)
      ensures View(uid) == PodLifecycle.UpdatePod(old(View(uid)), options, cacheTerminal)
      ensures forall u :: u != uid ==> View(u) == old(View(u))
    {
      UpdatePreserves(View(uid), options, cacheTerminal);
      UpdateLocked(uid, options, cacheTerminal);
      KeepsValid(uid);
    }

    // ------------------------------------------------------------ managePodLoop

    /** Records that the worker has seen the termination and returns the status function registered last. */
    method AcknowledgeTerminating(uid: string) returns (statusFn: Option<nat>)
      modifies this`podSyncStatuses
      ensures View(uid) == Acknowledge(old(View(uid)))
      ensures forall u :: u != uid ==> View(u) == old(View(u))
      ensures statusFn.Some? <==> View(uid).status.Some? && View(uid).status.value.statusFns != []
      ensures statusFn.Some? ==> statusFn.value == Last(View(uid).status.value.statusFns)
    {
      if uid !in podSyncStatuses {
        return None;
      }
      if podSyncStatuses[uid].terminating && !podSyncStatuses[uid].startedTerminating {
        SetStatus(uid, podSyncStatuses[uid].(startedTerminating := true));
      }
      var fns := podSyncStatuses[uid].statusFns;
      return if fns != [] then Some(fns[|fns| - 1]) else None;
    }

    /** Closes a list of completion channels, one after the other. */
    method CloseChannels(uid: string, chs: seq<nat>)
      modifies this`histories
      ensures View(uid) == old(View(uid)).(h := CloseAll(old(View(uid)).h, chs))
      ensures forall u :: u != uid ==> View(u) == old(View(u))
    {
      var i := 0;
      while i < |chs|
        invariant 0 <= i <= |chs|
        invariant View(uid) == old(View(uid)).(h := View(uid).h)
        invariant CloseAll(View(uid).h, chs[i..]) == CloseAll(old(View(uid)).h, chs)
        invariant forall u :: u != uid ==> View(u) == old(View(u))
      {
        assert chs[i..][0] == chs[i] && chs[i..][1..] == chs[i + 1..];
        SetHistory(uid, CloseCompletion(HistoryOf(uid), chs[i]));
        i := i + 1;
      }
    }

    method CompleteTerminating(uid: string, source: Source)
      modifies this
      ensures View(uid) == PodLifecycle.CompleteTerminating(old(View(uid)), source)
      ensures forall u :: u != uid ==> View(u) == old(View(u))
      ensures podsSynced == old(podsSynced)
    {
      if uid in podSyncStatuses {
        var status := podSyncStatuses[uid];
        SetStatus(uid, status.(terminated := true, notify := [], statusFns := []));
        CloseChannels(uid, status.notify);
        CloseAllNotifies(old(View(uid)).h, status.notify);
      }
      var h := HistoryOf(uid);
      var work := Work.Work(|h.generated|, TerminatedPodWork, UpdateOptions(SyncPodSync, source, None));
      Hold(uid, work);
      SetHistory(uid, h.(generated := h.generated + [work]));
    }

    /** Closes the UID's channel, which must still be open, and forgets it and any undelivered work. */
    method CloseWorker(uid: string)
      requires uid in podUpdates ==> podUpdates[uid] < |Workers(uid)| && !Workers(uid)[podUpdates[uid]].closed
      modifies this`goroutines, this`podUpdates, this`lastUndelivered
      ensures View(uid) == CloseUpdates(old(View(uid)))
      ensures forall u :: u != uid ==> View(u) == old(View(u))
    {
      if uid in podUpdates {
        var c := podUpdates[uid];
        SetWorker(uid, c, goroutines[uid][c].(closed := true));
      }
      podUpdates := podUpdates - {uid};
      lastUndelivered := lastUndelivered - {uid};
    }

    method CompleteTerminatingRuntimePod(uid: string)
      requires uid in podUpdates ==> podUpdates[uid] < |Workers(uid)| && !Workers(uid)[podUpdates[uid]].closed
      modifies this
      ensures View(uid) == PodLifecycle.CompleteTerminatingRuntimePod(old(View(uid)))
      ensures forall u :: u != uid ==> View(u) == old(View(u))
      ensures podsSynced == old(podsSynced)
    {
      if uid in podSyncStatuses {
        SetStatus(uid, podSyncStatuses[uid].(terminated := true, finished := true, working := false));
      }
      CloseWorker(uid);
    }

    method CompleteTerminated(uid: string)
      requires uid in podUpdates ==> podUpdates[uid] < |Workers(uid)| && !Workers(uid)[podUpdates[uid]].closed
      modifies this
      ensures View(uid) == PodLifecycle.CompleteTerminated(old(View(uid)))
      ensures forall u :: u != uid ==> View(u) == old(View(u))
      ensures podsSynced == old(podsSynced)
    {
      CloseWorker(uid);
      if uid in podSyncStatuses {
        SetStatus(uid, podSyncStatuses[uid].(finished := true, working := false));
      }
    }

    method CompleteWorkQueueNext(uid: string)
      requires if uid in lastUndelivered then CanSend(uid) else uid in podSyncStatuses
      modifies this
      ensures View(uid) == PodLifecycle.CompleteWorkQueueNext(old(View(uid)))
      ensures forall u :: u != uid ==> View(u) == old(View(u))
      ensures podsSynced == old(podsSynced)
    {
      if uid in lastUndelivered {
        SendWork(uid, lastUndelivered[uid]);
        lastUndelivered := lastUndelivered - {uid};
      } else {
        SetStatus(uid, podSyncStatuses[uid].(working := false));
      }
    }

    method SetPosition(uid: string, i: nat, pc: Pc)
      requires i < |Workers(uid)|
      modifies this`goroutines
      ensures View(uid) == SetPc(old(View(uid)), i, pc)
      ensures forall u :: u != uid ==> View(u) == old(View(u))
    {
      SetWorker(uid, i, Workers(uid)[i].(pc := pc));
    }

    /** Takes the next item from the channel, or leaves the loop if it is closed and drained. */
    method ReceiveWork(uid: string, i: nat)
      requires Valid() && i < |Workers(uid)| && Workers(uid)[i].pc.Waiting?
      modifies this
      ensures Valid() && podsSynced == old(podsSynced)
      ensures View(uid) == WorkerStep(old(View(uid)), i, Receive)
      ensures forall u :: u != uid ==> View(u) == old(View(u))
    {
      WorkerPreserves(View(uid), i, Receive);
      var w := Workers(uid)[i];
      if w.queue != [] {
        SetWorker(uid, i, w.(queue := w.queue[1..], pc := Received(w.queue[0])));
      } else if w.closed {
        SetPosition(uid, i, Exited);
      }
      KeepsValid(uid);
    }

    /** The status cache could not be read for the item held: the iteration ends without a sync call. */
    method SkipWork(uid: string, i: nat)
      requires Valid() && i < |Workers(uid)| && Workers(uid)[i].pc.Received?
      requires !Workers(uid)[i].pc.work.options.source.RuntimeOnly?
      modifies this
      ensures Valid() && podsSynced == old(podsSynced)
      ensures View(uid) == WorkerStep(old(View(uid)), i, ReadFails)
      ensures forall u :: u != uid ==> View(u) == old(View(u))
    {
      WorkerPreserves(View(uid), i, ReadFails);
      SkipWorker(uid, i);
      KeepsValid(uid);
    }

    method SkipWorker(uid: string, i: nat)
      requires i < |Workers(uid)| && Workers(uid)[i].pc.Received?
      requires !Workers(uid)[i].pc.work.options.source.RuntimeOnly?
      modifies this`goroutines, this`histories
      ensures View(uid) == WorkerStep(old(View(uid)), i, ReadFails)
      ensures forall u :: u != uid ==> View(u) == old(View(u))
    {
      var work, h := Workers(uid)[i].pc.work, HistoryOf(uid);
      SetPosition(uid, i, Requeueing);
      SetHistory(uid, Handle(h, work).(skipped := h.skipped + {work.serial}));
    }

    /** Calls the sync function for the item held, after acknowledging a termination. */
    method StartWork(uid: string, i: nat) returns (statusFn: Option<nat>)
      requires Valid() && i < |Workers(uid)| && Workers(uid)[i].pc.Received?
      modifies this
      ensures Valid() && podsSynced == old(podsSynced)
      ensures View(uid) == WorkerStep(old(View(uid)), i, Start)
      ensures forall u :: u != uid ==> View(u) == old(View(u))
    {
      WorkerPreserves(View(uid), i, Start);
      statusFn := CallWorker(uid, i);
      KeepsValid(uid);
    }

    method CallWorker(uid: string, i: nat) returns (statusFn: Option<nat>)
      requires i < |Workers(uid)| && Workers(uid)[i].pc.Received?
      modifies this
      ensures podsSynced == old(podsSynced)
      ensures View(uid) == WorkerStep(old(View(uid)), i, Start)
      ensures forall u :: u != uid ==> View(u) == old(View(u))
    {
      var work := Workers(uid)[i].pc.work;
      statusFn := None;
      SetPosition(uid, i, Running(work));
      SetHistory(uid, Call(HistoryOf(uid), work));
      if work.kind.TerminatingPodWork? {
        statusFn := AcknowledgeTerminating(uid);
      }
    }

    /** The sync function returns. */
    method ReturnWork(uid: string, i: nat, ok: bool)
      requires Valid() && i < |Workers(uid)| && Workers(uid)[i].pc.Running?
      modifies this
      ensures Valid() && podsSynced == old(podsSynced)
      ensures View(uid) == WorkerStep(old(View(uid)), i, Return(ok))
      ensures forall u :: u != uid ==> View(u) == old(View(u))
    {
      WorkerPreserves(View(uid), i, Return(ok));
      ReturnWorker(uid, i, ok);
      KeepsValid(uid);
    }

    method ReturnWorker(uid: string, i: nat, ok: bool)
      requires i < |Workers(uid)| && Workers(uid)[i].pc.Running?
      modifies this`goroutines
      ensures View(uid) == WorkerStep(old(View(uid)), i, Return(ok))
      ensures forall u :: u != uid ==> View(u) == old(View(u))
    {
      var work := Workers(uid)[i].pc.work;
      if ok && !work.kind.SyncPodWork? {
        SetPosition(uid, i, Finishing(work));
      } else {
        SetPosition(uid, i, Requeueing);
      }
    }

    /** What the loop does after a terminating or terminated sync function returned without error. */
    method FinishWork(uid: string, i: nat)
      requires Valid() && i < |Workers(uid)| && Workers(uid)[i].pc.Finishing?
      modifies this
      ensures Valid() && podsSynced == old(podsSynced)
      ensures View(uid) == WorkerStep(old(View(uid)), i, Complete)
      ensures forall u :: u != uid ==> View(u) == old(View(u))
    {
      WorkerPreserves(View(uid), i, Complete);
      CompleteWorker(uid, i);
      KeepsValid(uid);
    }

    method CompleteWorker(uid: string, i: nat)
      requires Inv(View(uid)) && i < |Workers(uid)| && Workers(uid)[i].pc.Finishing?
      modifies this
      ensures podsSynced == old(podsSynced)
      ensures View(uid) == WorkerStep(old(View(uid)), i, Complete)
      ensures forall u :: u != uid ==> View(u) == old(View(u))
    {
      var work := Workers(uid)[i].pc.work;
      T.BusyIsLive(View(uid), i);
      if work.kind.TerminatedPodWork? {
        SetPosition(uid, i, Exited);
        CompleteTerminated(uid);
      } else if work.options.source.RuntimeOnly? {
        SetPosition(uid, i, Exited);
        CompleteTerminatingRuntimePod(uid);
      } else {
        SetPosition(uid, i, Requeueing);
        CompleteTerminating(uid, work.options.source);
      }
    }

    /** The end of an iteration: hand over the undelivered item or go idle. */
    method RequeueWork(uid: string, i: nat)
      requires Valid() && i < |Workers(uid)| && Workers(uid)[i].pc.Requeueing?
      modifies this
      ensures Valid() && podsSynced == old(podsSynced)
      ensures View(uid) == WorkerStep(old(View(uid)), i, QueueNext)
      ensures forall u :: u != uid ==> View(u) == old(View(u))
    {
      WorkerPreserves(View(uid), i, QueueNext);
      RequeueWorker(uid, i);
      KeepsValid(uid);
    }

    method RequeueWorker(uid: string, i: nat)
      requires Inv(View(uid)) && i < |Workers(uid)| && Workers(uid)[i].pc.Requeueing?
      modifies this
      ensures podsSynced == old(podsSynced)
      ensures View(uid) == WorkerStep(old(View(uid)), i, QueueNext)
      ensures forall u :: u != uid ==> View(u) == old(View(u))
    {
      T.BusyIsLive(View(uid), i);
      SetPosition(uid, i, Waiting);
      CompleteWorkQueueNext(uid);
    }

    // ------------------------------------------------------------------- queries

    method ShouldPodContainersBeTerminating(uid: string) returns (b: bool)
      requires Inv(View(uid))
      ensures b == (if View(uid).status.Some? then View(uid).status.value.startedTerminating else podsSynced)
      ensures b ==> T.NoSyncWork(View(uid))
    {
      if uid in podSyncStatuses {
        b := podSyncStatuses[uid].startedTerminating;
        if b { T.StartedMeansNoSyncWork(View(uid)); }
      } else {
        b := podsSynced;
      }
    }

    method CouldHaveRunningContainers(uid: string) returns (b: bool)
      requires Inv(View(uid))
      ensures b == (if View(uid).status.Some? then !View(uid).status.value.terminated else !podsSynced)
      ensures !b ==> T.NoSyncWork(View(uid))
    {
      if uid in podSyncStatuses {
        b := !podSyncStatuses[uid].terminated;
        if !b { T.StartedMeansNoSyncWork(View(uid)); }
      } else {
        b := !podsSynced;
      }
    }

    // ------------------------------------------------------------- SyncKnownPods

    method RemoveTerminatedWorker(uid: string)
      modifies this
      ensures View(uid) == HousekeepPod(old(View(uid)), false)
      ensures forall u :: u != uid ==> View(u) == old(View(u))
      ensures podsSynced == old(podsSynced)
      ensures podSyncStatuses.Keys <= old(podSyncStatuses.Keys)
    {
      if uid !in podSyncStatuses {
        return;
      }
      if !podSyncStatuses[uid].finished {
        return;
      }
      var h := HistoryOf(uid);
      podSyncStatuses := podSyncStatuses - {uid};
      podUpdates := podUpdates - {uid};
      lastUndelivered := lastUndelivered - {uid};
      SetHistory(uid, h.(generated := [], handled := [], skipped := {}, ran := [],
                         past := h.past + [h.handled], pastRan := h.pastRan + [h.ran]));
    }

    /** The body of the loop over known pods. */
    method Visit(uid: string, known: bool)
      modifies this
      ensures View(uid) == HousekeepPod(old(View(uid)), known)
      ensures forall u :: u != uid ==> View(u) == old(View(u))
      ensures podsSynced == old(podsSynced)
    {
      if uid in podSyncStatuses && (!known || podSyncStatuses[uid].restartRequested) {
        RemoveTerminatedWorker(uid);
      }
    }

    /** Forgets every finished pod that is not desired or was asked to restart, in any order of visits,
        and reports the state every known pod had. */
    method SyncKnownPods(desired: seq<string>) returns (workers: map<string, WorkerState>)
      requires Valid()
      modifies this
      ensures Valid() && podsSynced
      ensures forall u :: View(u) == HousekeepPod(old(View(u)), u in desired)
      ensures forall u :: u in old(podSyncStatuses) ==>
                var st := old(podSyncStatuses)[u];
                u !in podSyncStatuses <==> st.finished && (u !in desired || st.restartRequested)
      ensures workers.Keys == old(podSyncStatuses.Keys)
      ensures forall u :: u in workers ==>
                var st := old(podSyncStatuses)[u];
                && (workers[u].SyncPod? <==> !st.terminating && !st.terminated)
                && (workers[u].TerminatingPod? <==> st.terminating && !st.terminated)
                && (workers[u].TerminatedPod? <==> st.terminated && !st.restartRequested)
                && (workers[u].TerminatedAndRecreatedPod? <==> st.terminated && st.restartRequested)
    {
      podsSynced := true;
      workers := VisitAll(desired);
      PurgeKeepsValid(desired);
      forall u | u in old(podSyncStatuses)
        ensures var st := old(podSyncStatuses)[u];
                u !in podSyncStatuses <==> st.finished && (u !in desired || st.restartRequested)
      {
        assert View(u) == HousekeepPod(old(View(u)), u in desired);
      }
    }

    twostate lemma PurgeKeepsValid(desired: seq<string>)
      requires old(Valid()) && forall u :: View(u) == HousekeepPod(old(View(u)), u in desired)
      ensures Valid()
    {
      forall u ensures Inv(View(u)) {
        HousekeepPreserves(old(View(u)), u in desired);
      }
    }

    function Visited(p: Pod, visited: bool, known: bool): Pod {
      if visited then HousekeepPod(p, known) else p
    }

    method VisitAll(desired: seq<string>) returns (workers: map<string, WorkerState>)
      modifies this
      ensures podsSynced == old(podsSynced)
      ensures forall u :: View(u) == HousekeepPod(old(View(u)), u in desired)
      ensures workers.Keys == old(podSyncStatuses.Keys)
      ensures forall u :: u in workers ==> workers[u] == StateOf(old(podSyncStatuses)[u])
    {
      workers := map[];
      var statuses := podSyncStatuses;
      var rest := statuses.Keys;
      while rest != {}
        invariant rest <= statuses.Keys && podsSynced == old(podsSynced)
        invariant forall u :: View(u) == Visited(old(View(u)), u in statuses && u !in rest, u in desired)
        invariant StatesOf(statuses, rest, workers)
        decreases rest
      {
        var uid :| uid in rest;
        Visit(uid, uid in desired);
        OneMoreState(statuses, rest, workers, uid);
        workers := workers[uid := StateOf(statuses[uid])];
        rest := rest - {uid};
      }
    }
  }
}
