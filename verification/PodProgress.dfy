/** The pod worker protocol cannot get stuck: when a terminating pod finishes by itself, and what helps
    when it does not. */
module PodProgress {
  import opened Wrappers
  import opened PodLifecycle
  import opened PodLifecycleInvariant
  import opened PodLifecycleTheorems

  /** Only worker goroutines move: no update arrives and nothing is purged. */
  predicate WorkersOnly(es: seq<Event>) {
    forall i :: 0 <= i < |es| ==> es[i].Work?
  }

  predicate IsFinished(p: Pod) { p.status.Some? && p.status.value.finished }

  /** The worker is at the end of an iteration and nothing follows. */
  predicate OutOfWork(p: Pod) {
    p.workers != [] && Last(p.workers).pc.Requeueing? && p.undelivered.None?
  }

  /** The pod is to be terminated and its worker still has something to do for it. */
  ghost predicate Underway(p: Pod) {
    && Inv(p) && p.status.Some? && !p.status.value.finished && Stage(p.status.value) >= 1
    && p.status.value.working && !OutOfWork(p)
  }

  // --------------------------------------------------------- a run that finishes

  /** The worker's next step when every sync function succeeds. */
  function NextAction(pc: Pc): Action {
    match pc
    case Received(_) => Start
    case Running(_) => Return(true)
    case Finishing(_) => Complete
    case Requeueing => QueueNext
    case _ => Receive
  }

  function PcRank(pc: Pc): nat {
    match pc
    case Running(_) => 5
    case Finishing(_) => 4
    case Requeueing => 3
    case Waiting => 2
    case _ => 1
  }

  /** What is left to do: a stage, then items in line, then the rest of an iteration. */
  ghost function StagesLeft(p: Pod): nat {
    if p.status.Some? then 2 - Stage(p.status.value) else 0
  }

  function StepsLeft(p: Pod): nat {
    if p.workers == [] then 0 else PcRank(Last(p.workers).pc)
  }

  ghost predicate Closer(q: Pod, p: Pod) {
    || StagesLeft(q) < StagesLeft(p)
    || (StagesLeft(q) == StagesLeft(p) && |Pending(q)| < |Pending(p)|)
    || (StagesLeft(q) == StagesLeft(p) && |Pending(q)| == |Pending(p)|
        && StepsLeft(q) < StepsLeft(p))
  }

  /** A pod to be terminated whose worker runs sync work has more in line. */
  lemma MoreInLine(p: Pod, st: Status)
    requires Live(p, st) && Stage(st) >= 1 && Last(p.workers).pc.Running?
    requires Last(p.workers).pc.work.kind.SyncPodWork?
    ensures p.undelivered.Some?
  {
    var line := p.h.handled + Pending(p);
    assert Pending(p) == Undelivered(p);
    assert p.undelivered.None? ==> line == p.h.handled;
  }

  /** What the steps need to know of a busy worker. */
  lemma BusyWorker(p: Pod)
    requires Underway(p) && Busy(Last(p.workers).pc)
    ensures p.updates == Some(|p.workers| - 1) && !Last(p.workers).closed && Last(p.workers).queue == []
    ensures Pending(p) == Held(Last(p.workers).pc) + Undelivered(p)
    ensures Live(p, p.status.value)
  {
  }

  /** Closer, with the stage and the worker's place known. */
  ghost predicate Reached(q: Pod, p: Pod, st: Status, pc: Pc, left: nat) {
    && q.status == Some(st) && |q.workers| == |p.workers| && q.workers != []
    && Last(q.workers).pc == pc && |Pending(q)| == left
  }

  lemma ReachedIsCloser(q: Pod, p: Pod, st: Status, pc: Pc, left: nat)
    requires Underway(p) && Inv(q) && Reached(q, p, st, pc, left)
    requires !st.finished && st.working && Stage(st) >= 1 && !OutOfWork(q)
    requires || Stage(st) > Stage(p.status.value)
             || (Stage(st) == Stage(p.status.value) && left < |Pending(p)|)
             || (Stage(st) == Stage(p.status.value) && left == |Pending(p)| && PcRank(pc) < PcRank(Last(p.workers).pc))
    ensures Underway(q) && |q.workers| == |p.workers| && Closer(q, p)
  {
  }

  lemma ReceiveReaches(p: Pod, w: Worker)
    requires p.workers != [] && Last(p.workers) == w && w.pc.Waiting? && |w.queue| == 1 && p.status.Some?
    ensures var q := WorkerStep(p, |p.workers| - 1, Receive);
            Reached(q, p, p.status.value, Received(w.queue[0]), |Pending(p)|)
  {
    ReceiveEffect(p, w);
    var q := WorkerStep(p, |p.workers| - 1, Receive);
    assert Pending(q) == Pending(p);
  }

  lemma StartReaches(p: Pod, x: Work)
    requires p.workers != [] && Last(p.workers).pc == Received(x) && Last(p.workers).queue == [] && p.status.Some?
    ensures var q := WorkerStep(p, |p.workers| - 1, Start);
            Reached(q, p, Acknowledged(p.status.value, x), Running(x), |Undelivered(p)|)
    ensures |Pending(p)| == 1 + |Undelivered(p)|
  {
    StartEffect(p, p.status.value, x);
    var q := WorkerStep(p, |p.workers| - 1, Start);
    assert Pending(q) == Undelivered(p);
  }

  lemma ReturnReaches(p: Pod, x: Work)
    requires p.workers != [] && Last(p.workers).pc == Running(x) && Last(p.workers).queue == [] && p.status.Some?
    ensures var q := WorkerStep(p, |p.workers| - 1, Return(true));
            && Reached(q, p, p.status.value, if x.kind.SyncPodWork? then Requeueing else Finishing(x), |Undelivered(p)|)
            && q.undelivered == p.undelivered
  {
    var q := WorkerStep(p, |p.workers| - 1, Return(true));
    assert Pending(q) == Undelivered(p);
  }

  lemma QueueNextReaches(p: Pod)
    requires p.workers != [] && Last(p.workers).pc.Requeueing? && Last(p.workers).queue == [] && p.status.Some?
    requires p.updates == Some(|p.workers| - 1) && !Last(p.workers).closed && p.undelivered.Some?
    ensures var q := WorkerStep(p, |p.workers| - 1, QueueNext); Reached(q, p, p.status.value, Waiting, 1)
  {
    var q := WorkerStep(p, |p.workers| - 1, QueueNext);
    assert q == CompleteWorkQueueNext(SetPc(p, |p.workers| - 1, Waiting));
    assert Pending(q) == [p.undelivered.value];
  }

  lemma ReceiveAdvances(p: Pod)
    requires Underway(p) && Last(p.workers).pc.Waiting?
    ensures var q := WorkerStep(p, |p.workers| - 1, Receive);
            Underway(q) && |q.workers| == |p.workers| && Closer(q, p)
  {
    var w := Last(p.workers);
    ReceivePreserves(p);
    ReceiveReaches(p, w);
    ReachedIsCloser(WorkerStep(p, |p.workers| - 1, Receive), p, p.status.value, Received(w.queue[0]), |Pending(p)|);
  }

  lemma StartAdvances(p: Pod)
    requires Underway(p) && Last(p.workers).pc.Received?
    ensures var q := WorkerStep(p, |p.workers| - 1, Start);
            Underway(q) && |q.workers| == |p.workers| && Closer(q, p)
  {
    var x := Last(p.workers).pc.work;
    StartPreserves(p);
    BusyWorker(p);
    StartReaches(p, x);
    ReachedIsCloser(WorkerStep(p, |p.workers| - 1, Start), p, Acknowledged(p.status.value, x), Running(x),
                    |Undelivered(p)|);
  }

  lemma ReturnAdvances(p: Pod)
    requires Underway(p) && Last(p.workers).pc.Running?
    ensures var q := WorkerStep(p, |p.workers| - 1, Return(true));
            Underway(q) && |q.workers| == |p.workers| && Closer(q, p)
  {
    var x := Last(p.workers).pc.work;
    var q := WorkerStep(p, |p.workers| - 1, Return(true));
    ReturnPreserves(p, true);
    BusyWorker(p);
    ReturnReaches(p, x);
    if x.kind.SyncPodWork? {
      MoreInLine(p, p.status.value);
    }
    ReachedIsCloser(q, p, p.status.value, if x.kind.SyncPodWork? then Requeueing else Finishing(x), |Undelivered(p)|);
  }

  lemma QueueNextAdvances(p: Pod)
    requires Underway(p) && Last(p.workers).pc.Requeueing?
    ensures var q := WorkerStep(p, |p.workers| - 1, QueueNext);
            Underway(q) && |q.workers| == |p.workers| && Closer(q, p)
  {
    QueueNextPreserves(p);
    BusyWorker(p);
    QueueNextReaches(p);
    ReachedIsCloser(WorkerStep(p, |p.workers| - 1, QueueNext), p, p.status.value, Waiting, 1);
  }

  /** Completing a termination of a configured pod leaves the terminated item to be delivered. */
  lemma CompleteReaches(p: Pod, x: Work)
    requires p.workers != [] && Last(p.workers).pc == Finishing(x) && Last(p.workers).queue == [] && p.status.Some?
    requires !x.kind.TerminatedPodWork? && !x.options.source.RuntimeOnly?
    ensures var q := WorkerStep(p, |p.workers| - 1, Complete);
            && Reached(q, p, p.status.value.(terminated := true, notify := [], statusFns := []), Requeueing, 1)
            && q.undelivered.Some?
  {
    var q := WorkerStep(p, |p.workers| - 1, Complete);
    assert q == CompleteTerminating(SetPc(p, |p.workers| - 1, Requeueing), x.options.source);
    assert Pending(q) == [q.undelivered.value];
  }

  lemma CompleteFinishes(p: Pod, x: Work)
    requires p.workers != [] && Last(p.workers).pc == Finishing(x) && p.status.Some?
    requires x.kind.TerminatedPodWork? || x.options.source.RuntimeOnly?
    ensures IsFinished(WorkerStep(p, |p.workers| - 1, Complete))
  {
    CloseUpdatesShape(SetPc(p, |p.workers| - 1, Exited));
  }

  lemma CompleteAdvances(p: Pod)
    requires Underway(p) && Last(p.workers).pc.Finishing?
    ensures var q := WorkerStep(p, |p.workers| - 1, Complete);
            IsFinished(q) || (Underway(q) && |q.workers| == |p.workers| && Closer(q, p))
  {
    var x, st := Last(p.workers).pc.work, p.status.value;
    BusyWorker(p);
    if x.kind.TerminatedPodWork? || x.options.source.RuntimeOnly? {
      CompleteFinishes(p, x);
    } else {
      CompleteContinues(p);
      CompleteReaches(p, x);
      ReachedIsCloser(WorkerStep(p, |p.workers| - 1, Complete), p,
                      st.(terminated := true, notify := [], statusFns := []), Requeueing, 1);
    }
  }

  lemma Advances(p: Pod)
    requires Underway(p)
    ensures var q := WorkerStep(p, |p.workers| - 1, NextAction(Last(p.workers).pc));
            IsFinished(q) || (Underway(q) && |q.workers| == |p.workers| && Closer(q, p))
  {
    match Last(p.workers).pc
    case Waiting => ReceiveAdvances(p);
    case Received(_) => StartAdvances(p);
    case Running(_) => ReturnAdvances(p);
    case Finishing(_) => CompleteAdvances(p);
    case Requeueing => QueueNextAdvances(p);
  }

  lemma NextStep(p: Pod) returns (e: Event, q: Pod)
    requires Underway(p)
    ensures e.Work? && q == Step(p, e) && (IsFinished(q) || (Underway(q) && Closer(q, p)))
  {
    e := Event.Work(|p.workers| - 1, NextAction(Last(p.workers).pc));
    q := WorkerStep(p, |p.workers| - 1, NextAction(Last(p.workers).pc));
    Advances(p);
  }

  lemma {:induction false} RunFirst(p: Pod, e: Event, es: seq<Event>)
    ensures Run(p, [e] + es) == Run(Step(p, e), es)
    decreases |es|
  {
    var fs := [e] + es;
    if es == [] {
      assert fs == [e] && fs[..0] == [];
      assert Run(p, []) == p;
    } else {
      assert fs[..|fs| - 1] == [e] + es[..|es| - 1] && fs[|fs| - 1] == es[|es| - 1];
      RunFirst(p, e, es[..|es| - 1]);
    }
  }

  /** Worker steps alone finish the pod. */
  lemma {:induction false} Finishes(p: Pod) returns (es: seq<Event>)
    requires Underway(p)
    ensures WorkersOnly(es) && IsFinished(Run(p, es))
    decreases StagesLeft(p), |Pending(p)|, StepsLeft(p)
  {
    var e, q := NextStep(p);
    es := [];
    if IsFinished(q) {
      assert Run(q, []) == q;
    } else {
      es := Finishes(q);
    }
    RunFirst(p, e, es);
    es := [e] + es;
  }

  // ------------------------------------------------------ every run that goes well

  /** A step some goroutine can take now, with its status read or its sync function succeeding. */
  predicate Enabled(p: Pod, e: Event) {
    && e.Work? && e.worker < |p.workers|
    && var w := p.workers[e.worker];
       !w.pc.Exited? && e.action == NextAction(w.pc) && (w.pc.Waiting? ==> w.queue != [] || w.closed)
  }

  /** Goroutines move, in any order, and nothing fails. */
  ghost predicate GoesWell(p: Pod, es: seq<Event>) {
    forall k :: 0 <= k < |es| ==> Enabled(Run(p, es[..k]), es[k])
  }

  /** How many steps a pod can still take. */
  ghost function StepBound(p: Pod): nat {
    if IsFinished(p) then 0 else 20 * StagesLeft(p) + 6 * |Pending(p)| + StepsLeft(p)
  }

  lemma FewPending(p: Pod)
    requires Underway(p)
    ensures |Pending(p)| <= 2 && 1 <= StepsLeft(p) <= 5 && StagesLeft(p) <= 1
  {
  }

  lemma CloserIsBounded(q: Pod, p: Pod)
    requires Underway(p) && Underway(q) && Closer(q, p)
    ensures StepBound(q) < StepBound(p)
  {
    FewPending(p);
    FewPending(q);
  }

  /** Only the live worker can move, and only by its next step. */
  lemma OnlyNextStep(p: Pod, e: Event)
    requires Underway(p) && Enabled(p, e)
    ensures e == Event.Work(|p.workers| - 1, NextAction(Last(p.workers).pc))
  {
    if e.worker < |p.workers| - 1 {
      ExitedIdle(p, e.worker, e.action);
    }
  }

  lemma NothingAfterFinish(p: Pod, e: Event)
    requires Inv(p) && IsFinished(p)
    ensures !Enabled(p, e)
  {
    if e.Work? && e.worker < |p.workers| {
      ExitedIdle(p, e.worker, e.action);
    }
  }

  lemma SomethingBeforeFinish(p: Pod)
    requires Underway(p)
    ensures Enabled(p, Event.Work(|p.workers| - 1, NextAction(Last(p.workers).pc)))
  {
  }

  lemma UnderwayStep(p: Pod, e: Event, q: Pod)
    requires Underway(p) && Enabled(p, e) && q == Step(p, e)
    ensures IsFinished(q) || Underway(q)
    ensures StepBound(q) < StepBound(p)
  {
    OnlyNextStep(p, e);
    Advances(p);
    FewPending(p);
    if !IsFinished(q) {
      CloserIsBounded(q, p);
    }
  }

  lemma EnabledStep(p: Pod, e: Event, q: Pod)
    requires Inv(p) && (IsFinished(p) || Underway(p)) && Enabled(p, e) && q == Step(p, e)
    ensures Inv(q) && (IsFinished(q) || Underway(q)) && StepBound(q) < StepBound(p)
  {
    StepPreserves(p, e);
    if IsFinished(p) {
      NothingAfterFinish(p, e);
    } else {
      UnderwayStep(p, e, q);
    }
  }

  lemma {:induction false} GoingWellCounts(p: Pod, es: seq<Event>)
    requires Underway(p) && GoesWell(p, es)
    ensures var q := Run(p, es);
            Inv(q) && (IsFinished(q) || Underway(q)) && |es| + StepBound(q) <= StepBound(p)
  {
    if es != [] {
      var n := |es| - 1;
      assert GoesWell(p, es[..n]) by {
        forall k | 0 <= k < n ensures Enabled(Run(p, es[..n][..k]), es[..n][k]) {
          assert es[..n][..k] == es[..k];
        }
      }
      GoingWellCounts(p, es[..n]);
      EnabledStep(Run(p, es[..n]), es[n], Run(p, es));
    }
  }

  /** Whatever its goroutines do, as long as no read and no sync fails, a pod to be terminated that has
      something to do stops only when it is finished, and that after at most 37 steps. */
  lemma EveryGoodRunFinishes(p: Pod, es: seq<Event>)
    requires Underway(p) && GoesWell(p, es)
    ensures |es| <= 37
    ensures (forall e :: !Enabled(Run(p, es), e)) <==> IsFinished(Run(p, es))
  {
    GoingWellCounts(p, es);
    FewPending(p);
    var q := Run(p, es);
    if IsFinished(q) {
      forall e ensures !Enabled(q, e) { NothingAfterFinish(q, e); }
    } else {
      SomethingBeforeFinish(q);
    }
  }

  // ----------------------------------------------------------- when it does not

  /** The live worker is idle or about to be. */
  ghost predicate AtRest(p: Pod) {
    && Inv(p) && p.status.Some? && !p.status.value.finished
    && (OutOfWork(p) || !p.status.value.working)
  }

  lemma WorkerRests(p: Pod, i: nat, a: Action)
    requires AtRest(p)
    ensures AtRest(WorkerStep(p, i, a))
  {
    WorkerPreserves(p, i, a);
    if i < |p.workers| - 1 {
      ExitedIdle(p, i, a);
    } else if i == |p.workers| - 1 && OutOfWork(p) && a.QueueNext? {
      RestsAfterQueueNext(p);
    }
  }

  lemma RestsAfterQueueNext(p: Pod)
    requires p.status.Some? && !p.status.value.finished && OutOfWork(p)
    ensures var q := WorkerStep(p, |p.workers| - 1, QueueNext);
            q.status.Some? && !q.status.value.finished && !q.status.value.working
  {
  }

  lemma {:induction false} RestStays(p: Pod, es: seq<Event>)
    requires AtRest(p) && WorkersOnly(es)
    ensures AtRest(Run(p, es))
  {
    if es != [] {
      var fs, e := es[..|es| - 1], es[|es| - 1];
      RestStays(p, fs);
      WorkerRests(Run(p, fs), e.worker, e.action);
    }
  }

  /** A pod to be terminated can finish by worker steps alone if and only if its worker is neither idle nor
      at the end of an iteration with nothing undelivered, as after a failed sync. */
  lemma FinishesByItselfExactly(p: Pod)
    requires Reachable(p) && p.status.Some? && !p.status.value.finished && p.status.value.terminating
    ensures (exists es :: WorkersOnly(es) && IsFinished(Run(p, es))) <==> p.status.value.working && !OutOfWork(p)
  {
    ReachableInv(p);
    if p.status.value.working && !OutOfWork(p) {
      var es := Finishes(p);
    } else {
      forall es | WorkersOnly(es) ensures !IsFinished(Run(p, es)) {
        RestStays(p, es);
      }
    }
  }

  /** That happens: the status read fails for the first item of a kill. */
  lemma OutOfWorkHappens()
    ensures exists p :: Reachable(p) && p.status.Some? && !p.status.value.finished && p.status.value.terminating
                        && p.status.value.working && OutOfWork(p)
  {
    var o := UpdateOptions(SyncPodKill, Config(false, false, None, None), None);
    var st := RegisterKill(FRESH.(terminating := true), o).(working := true);
    var w := Work.Work(0, TerminatingPodWork, WithGrace(o, st.gracePeriod));
    var h := UNKNOWN.h.(generated := [w]);
    var p1 := Pod(Some(st), Some(0), None, [Worker([w], false, Waiting)], None, h);
    var p2 := p1.(workers := [Worker([], false, Received(w))]);
    var p3 := p1.(workers := [Worker([], false, Requeueing)], h := h.(handled := [w], skipped := {0}));
    Reaches(UNKNOWN, Update(o, false), p1) by { assert Run(UNKNOWN, []) == UNKNOWN; }
    assert [w][1..] == [];
    Reaches(p1, Event.Work(0, Receive), p2);
    Reaches(p2, Event.Work(0, ReadFails), p3);
  }

  /** An update that is neither ignored nor a request to recreate gives the worker of a pod to be terminated
      something to do. */
  lemma UpdateSetsUnderway(p: Pod, o: UpdateOptions, cacheTerminal: bool)
    requires Inv(p) && p.status.Some? && !p.status.value.finished
    requires o.source.Config? && !o.updateType.SyncPodCreate?
    requires p.status.value.terminating || o.source.deleting || o.source.terminalPhase || o.updateType.SyncPodKill?
    ensures Underway(UpdatePod(p, o, cacheTerminal))
  {
    var st := p.status.value;
    var st1 := BeginTermination(st, o);
    UpdatePreserves(p, o, cacheTerminal);
    UnfinishedHasChannel(p);
    TerminationBegins(st, o);
    if st1.terminated {
      ClosingSetsWork(p, st, TerminatedPodWork, o);
    } else {
      KillStatus(st, o);
      var st2 := RegisterKill(st1, o);
      DispatchSetsWork(p, st, st2, TerminatingPodWork, WithGrace(o, st2.gracePeriod));
    }
  }

  lemma ClosingSetsWork(p: Pod, st: Status, kind: WorkType, o: UpdateOptions)
    requires Live(p, st)
    ensures var q := DispatchClosing(p, st, kind, o); q.status == Some(st.(working := true)) && !OutOfWork(q)
  {
    var q := p.(h := CloseRequested(p.h, o));
    assert Pending(q) == Pending(p);
    DispatchSetsWork(q, st, st, kind, o.(kill := None));
  }

  lemma DispatchSetsWork(p: Pod, st0: Status, st: Status, kind: WorkType, o: UpdateOptions)
    requires p.workers != [] && p.updates == Some(|p.workers| - 1) && st.working == st0.working
    requires !st0.working ==> Last(p.workers).pc.Waiting?
    ensures var q := Dispatch(p, st, kind, o); q.status == Some(st.(working := true)) && !OutOfWork(q)
  {
  }

  /** So no pod is ever stuck: from every reachable state of an unfinished pod, one kill and then worker
      steps alone can finish it, and they do if none of them fails. */
  lemma EveryPodCanFinish(p: Pod, o: UpdateOptions, cacheTerminal: bool)
    requires Reachable(p) && p.status.Some? && !p.status.value.finished
    requires o.source.Config? && o.updateType.SyncPodKill?
    ensures exists es :: WorkersOnly(es) && IsFinished(Run(UpdatePod(p, o, cacheTerminal), es))
    ensures forall es :: GoesWell(UpdatePod(p, o, cacheTerminal), es) ==>
              && |es| <= 37
              && var q := Run(UpdatePod(p, o, cacheTerminal), es);
                 (forall e :: !Enabled(q, e)) <==> IsFinished(q)
  {
    ReachableInv(p);
    UpdateSetsUnderway(p, o, cacheTerminal);
    var q := UpdatePod(p, o, cacheTerminal);
    var fs := Finishes(q);
    forall es | GoesWell(q, es)
      ensures |es| <= 37 && ((forall e :: !Enabled(Run(q, es), e)) <==> IsFinished(Run(q, es)))
    {
      EveryGoodRunFinishes(q, es);
    }
  }
}
