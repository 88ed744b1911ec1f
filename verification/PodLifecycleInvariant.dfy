/** The invariant of the pod worker protocol, and that every step keeps it. */
module PodLifecycleInvariant {
  import opened Wrappers
  import opened PodLifecycle

  function Rank(k: WorkType): nat {
    match k
    case SyncPodWork => 0
    case TerminatingPodWork => 1
    case TerminatedPodWork => 2
  }

  /** The rank of the work that `UpdatePod` generates in this status. */
  function Stage(st: Status): nat {
    if !st.terminating then 0 else if !st.terminated then 1 else 2
  }

  ghost predicate PhaseOrdered(ws: seq<Work>) {
    forall i, j :: 0 <= i < j < |ws| ==> Rank(ws[i].kind) <= Rank(ws[j].kind)
  }

  /** `ws` is a subsequence of `generated`, in order and without repeats. */
  ghost predicate Follows(ws: seq<Work>, generated: seq<Work>) {
    && (forall i :: 0 <= i < |ws| ==> ws[i].serial < |generated| && generated[ws[i].serial] == ws[i])
    && (forall i, j :: 0 <= i < j < |ws| ==> ws[i].serial < ws[j].serial)
  }

  function Held(pc: Pc): seq<Work> {
    if pc.Received? then [pc.work] else []
  }

  function Undelivered(p: Pod): seq<Work> {
    if p.undelivered.Some? then [p.undelivered.value] else []
  }

  /** Work generated but not yet handled, in the order the worker will see it. */
  function Pending(p: Pod): seq<Work> {
    if p.workers == [] then Undelivered(p)
    else var w := Last(p.workers); Held(w.pc) + w.queue + Undelivered(p)
  }

  predicate Busy(pc: Pc) {
    !pc.Waiting? && !pc.Exited?
  }

  ghost predicate AllExited(ws: seq<Worker>) {
    forall i :: 0 <= i < |ws| ==> ws[i].pc.Exited?
  }

  ghost predicate StatusOk(st: Status) {
    && (st.finished ==> st.terminated)
    && (st.terminated ==> st.startedTerminating)
    && (st.startedTerminating ==> st.terminating)
  }

  /** Nothing of this pod is left in the worker maps and no goroutine is running. */
  ghost predicate Quiet(p: Pod) {
    p.updates.None? && p.undelivered.None? && AllExited(p.workers)
  }

  /** The worker's position agrees with the status and with what it handled. */
  ghost predicate PcOk(p: Pod, st: Status, pc: Pc) {
    && !pc.Exited?
    && (pc.Running? || pc.Finishing? ==>
          && p.h.handled != [] && pc.work == Last(p.h.handled)
          && (pc.work.kind.TerminatingPodWork? ==> st.startedTerminating && !st.terminated))
    && (pc.Finishing? ==> !pc.work.kind.SyncPodWork?)
  }

  /** Exactly one worker is alive, on the channel in `podUpdates`; `working` is true exactly when it
      holds or is about to receive one item; and the last item in line is the latest generated. */
  ghost predicate Live(p: Pod, st: Status) {
    && p.workers != []
    && p.updates == Some(|p.workers| - 1)
    && AllExited(p.workers[..|p.workers| - 1])
    && var w := Last(p.workers);
    && !w.closed
    && PcOk(p, st, w.pc)
    && (if st.working then (if Busy(w.pc) then w.queue == [] else |w.queue| == 1)
        else w.pc.Waiting? && w.queue == [] && p.undelivered.None?)
    && InLine(p.h, Pending(p), st)
  }

  ghost predicate InLine(h: History, pending: seq<Work>, st: Status) {
    && h.generated != []
    && Rank(Last(h.generated).kind) == Stage(st)
    && var line := h.handled + pending;
    && line != [] && Last(line).serial == |h.generated| - 1
    && Follows(line, h.generated)
    && (st.startedTerminating ==> h.handled != [] && Rank(Last(h.handled).kind) >= 1)
    && (st.terminated ==> forall i :: 0 <= i < |pending| ==> pending[i].kind.TerminatedPodWork?)
  }

  ghost predicate HistoryOk(h: History) {
    && PhaseOrdered(h.generated)
    && Follows(h.handled, h.generated)
    && (forall i :: 0 <= i < |h.past| ==> PhaseOrdered(h.past[i]))
  }

  ghost predicate Inv(p: Pod) {
    && p.fault.None?
    && HistoryOk(p.h)
    && |p.workers| <= |p.h.past| + (if p.h.generated != [] then 1 else 0)
    && match p.status
       case None => Quiet(p) && p.h.generated == [] && p.h.handled == []
       case Some(st) =>
         && StatusOk(st)
         && (st.terminating && p.h.generated != [] ==> st.gracePeriod >= 1)
         && (if st.finished then Quiet(p) && !st.working else Live(p, st))
  }

  lemma LiveInv(q: Pod, st: Status)
    requires q.status == Some(st) && !st.finished && q.fault.None?
    requires HistoryOk(q.h) && |q.workers| <= |q.h.past| + 1
    requires StatusOk(st) && (st.terminating ==> st.gracePeriod >= 1)
    requires Live(q, st)
    ensures Inv(q)
  {
  }

  // ------------------------------------------------------------------ UpdatePod

  lemma FollowsExtend(ws: seq<Work>, generated: seq<Work>, w: Work)
    requires Follows(ws, generated)
    requires w.serial == |generated|
    ensures Follows(ws, generated + [w])
    ensures Follows(ws + [w], generated + [w])
  {
  }

  lemma FollowsPrefix(ws: seq<Work>, vs: seq<Work>, generated: seq<Work>)
    requires Follows(ws + vs, generated)
    ensures Follows(ws, generated)
  {
    forall i | 0 <= i < |ws| ensures ws[i].serial < |generated| && generated[ws[i].serial] == ws[i] {
      assert (ws + vs)[i] == ws[i];
    }
    forall i, j | 0 <= i < j < |ws| ensures ws[i].serial < ws[j].serial {
      assert (ws + vs)[i] == ws[i] && (ws + vs)[j] == ws[j];
    }
  }

  /** What follows an ordered source is phase ordered. */
  lemma FollowsPhases(ws: seq<Work>, generated: seq<Work>)
    requires PhaseOrdered(generated) && Follows(ws, generated)
    ensures PhaseOrdered(ws)
  {
  }

  /** Generating one more item, which goes to the end of the line and may replace the items after `kept`. */
  lemma InLineGenerate(h: History, kept: seq<Work>, dropped: seq<Work>, st0: Status, st: Status, w: Work)
    requires HistoryOk(h) && InLine(h, kept + dropped, st0)
    requires w.serial == |h.generated| && Rank(w.kind) == Stage(st)
    requires StatusOk(st) && st0.startedTerminating == st.startedTerminating
    requires Stage(st0) <= Stage(st)
    requires st.terminated ==> forall i :: 0 <= i < |kept| ==> kept[i].kind.TerminatedPodWork?
    ensures InLine(h.(generated := h.generated + [w]), kept + [w], st)
    ensures HistoryOk(h.(generated := h.generated + [w]))
  {
    var g := h.generated + [w];
    LineExtends(h, kept, dropped, w);
    FollowsPrefix(h.handled, kept + [w], g);
    PhasesExtend(h.generated, w);
    assert Last(h.handled + (kept + [w])) == w && Last(g) == w;
  }

  lemma LineExtends(h: History, kept: seq<Work>, dropped: seq<Work>, w: Work)
    requires Follows(h.handled + (kept + dropped), h.generated) && w.serial == |h.generated|
    ensures Follows(h.handled + (kept + [w]), h.generated + [w])
  {
    var line := h.handled + kept;
    assert h.handled + (kept + dropped) == line + dropped;
    FollowsPrefix(line, dropped, h.generated);
    FollowsExtend(line, h.generated, w);
    assert h.handled + (kept + [w]) == line + [w];
  }

  lemma PhasesExtend(generated: seq<Work>, w: Work)
    requires PhaseOrdered(generated) && (generated != [] ==> Rank(Last(generated).kind) <= Rank(w.kind))
    ensures PhaseOrdered(generated + [w])
  {
    assert forall i :: 0 <= i < |generated| ==> Rank(generated[i].kind) <= Rank(Last(generated).kind);
  }

  /** Work for a busy worker is held as undelivered, replacing what was held before. */
  lemma HoldLive(p: Pod, st0: Status, st: Status, work: Work)
    requires HistoryOk(p.h) && Live(p, st0) && st.working && st0.working
    requires StatusOk(st) && st0.startedTerminating == st.startedTerminating && st0.terminated == st.terminated
    requires st0.terminating ==> st.terminating
    requires work.serial == |p.h.generated| && Rank(work.kind) == Stage(st)
    ensures var q := p.(status := Some(st), undelivered := Some(work), h := p.h.(generated := p.h.generated + [work]));
            HistoryOk(q.h) && Live(q, st)
  {
    var q := p.(status := Some(st), undelivered := Some(work), h := p.h.(generated := p.h.generated + [work]));
    var kept := Held(Last(p.workers).pc) + Last(p.workers).queue;
    assert Pending(p) == kept + Undelivered(p);
    assert forall i :: 0 <= i < |kept| ==> kept[i] == Pending(p)[i];
    InLineGenerate(p.h, kept, Undelivered(p), st0, st, work);
    assert Pending(q) == kept + [work];
  }

  /** Work for an idle worker is put in its empty channel. */
  lemma SendLive(p: Pod, st0: Status, st: Status, work: Work)
    requires HistoryOk(p.h) && Live(p, st0) && !st0.working && st.working
    requires StatusOk(st) && st0.startedTerminating == st.startedTerminating && st0.terminated == st.terminated
    requires st0.terminating ==> st.terminating
    requires work.serial == |p.h.generated| && Rank(work.kind) == Stage(st)
    ensures var q := Send(p.(status := Some(st), h := p.h.(generated := p.h.generated + [work])), work);
            && HistoryOk(q.h) && Live(q, st) && q.fault == p.fault && q.status == Some(st)
            && |q.workers| == |p.workers| && q.h == p.h.(generated := p.h.generated + [work])
  {
    var q := Send(p.(status := Some(st), h := p.h.(generated := p.h.generated + [work])), work);
    assert Pending(p) == [] + [];
    InLineGenerate(p.h, [], [], st0, st, work);
    assert Pending(q) == [] + [work];
    assert q.workers[..|q.workers| - 1] == p.workers[..|p.workers| - 1];
  }

  lemma DispatchLive(p: Pod, st0: Status, st: Status, kind: WorkType, o: UpdateOptions)
    requires HistoryOk(p.h) && p.fault.None?
    requires |p.workers| <= |p.h.past| + 1
    requires StatusOk(st) && !st.finished && (st.terminating ==> st.gracePeriod >= 1)
    requires Live(p, st0)
    requires st0.working == st.working && st0.startedTerminating == st.startedTerminating
             && st0.terminated == st.terminated
    requires st0.terminating ==> st.terminating
    requires Rank(kind) == Stage(st)
    ensures Inv(Dispatch(p, st, kind, o))
  {
    var work := Work.Work(|p.h.generated|, kind, o);
    if st.working {
      HoldLive(p, st0, st, work);
      LiveInv(Dispatch(p, st, kind, o), st);
    } else {
      SendLive(p, st0, st.(working := true), work);
      LiveInv(Dispatch(p, st, kind, o), st.(working := true));
    }
  }

  /** The first work of an incarnation starts a worker and is sent to it. */
  lemma DispatchFirst(p: Pod, st: Status, kind: WorkType, o: UpdateOptions)
    requires HistoryOk(p.h) && p.fault.None?
    requires |p.workers| <= |p.h.past|
    requires Quiet(p) && p.h.generated == [] && p.h.handled == []
    requires StatusOk(st) && !st.finished && !st.startedTerminating && !st.working
    requires st.terminating ==> st.gracePeriod >= 1
    requires Rank(kind) == Stage(st)
    ensures Inv(Dispatch(p, st, kind, o))
  {
    var work := Work.Work(0, kind, o);
    var q := Dispatch(p, st, kind, o);
    var stq := q.status.value;
    assert q.workers[..|q.workers| - 1] == p.workers;
    assert q.h.handled + Pending(q) == [work];
    assert InLine(q.h, Pending(q), stq);
  }

  lemma UpdatePreserves(p: Pod, o: UpdateOptions, cacheTerminal: bool)
    requires Inv(p)
    ensures Inv(UpdatePod(p, o, cacheTerminal))
  {
    if p.status.Some? {
      var st := p.status.value;
      if !st.finished && !(st.terminating && o.updateType.SyncPodCreate?) {
        UpdateLive(p, o);
      } else if !st.finished {
        assert Live(p, st.(restartRequested := true));
      }
    } else {
      UpdateUnknown(p, o, cacheTerminal);
    }
  }

  /** Closing completion channels touches nothing the protocol depends on. */
  lemma LiveIgnoresNotified(p: Pod, st: Status, h: History)
    requires Live(p, st) && HistoryOk(p.h)
    requires h == p.h.(notified := h.notified, renotified := h.renotified)
    ensures Live(p.(h := h), st) && HistoryOk(h)
  {
    assert Pending(p.(h := h)) == Pending(p);
  }

  /** An update that only dispatches: its completion channel, if any, is closed at once. */
  lemma UpdateCloses(p: Pod, st1: Status, kind: WorkType, o: UpdateOptions)
    requires Inv(p) && p.status.Some? && !p.status.value.finished && st1 == p.status.value
    requires Rank(kind) == Stage(st1)
    ensures Inv(DispatchClosing(p, st1, kind, o))
  {
    var q := p.(h := CloseRequested(p.h, o));
    LiveIgnoresNotified(p, st1, q.h);
    DispatchLive(q, st1, st1, kind, o.(kill := None));
  }

  lemma TerminationBegins(st: Status, o: UpdateOptions)
    requires StatusOk(st)
    ensures var st1 := BeginTermination(st, o);
            st1.terminated == st.terminated && (st1.terminated || !st1.terminating ==> st1 == st)
  {
  }

  lemma UpdateLive(p: Pod, o: UpdateOptions)
    requires Inv(p) && p.status.Some? && !p.status.value.finished
    ensures Inv(UpdateUnfinished(p, BeginTermination(p.status.value, o), o))
  {
    var st1 := BeginTermination(p.status.value, o);
    TerminationBegins(p.status.value, o);
    if st1.terminated {
      if !o.source.RuntimeOnly? {
        UpdateCloses(p, st1, TerminatedPodWork, o);
      }
    } else if st1.terminating {
      UpdateKills(p, st1, o);
    } else {
      UpdateCloses(p, st1, SyncPodWork, o);
    }
  }

  /** An update of a terminating pod. */
  lemma UpdateKills(p: Pod, st1: Status, o: UpdateOptions)
    requires Inv(p) && p.status.Some? && !p.status.value.finished
    requires st1 == BeginTermination(p.status.value, o) && st1.terminating && !st1.terminated
    ensures Inv(DispatchKill(p, st1, o))
  {
    var st2 := RegisterKill(st1, o);
    KillStatus(p.status.value, o);
    DispatchLive(p, p.status.value, st2, TerminatingPodWork, WithGrace(o, st2.gracePeriod));
  }

  /** Registering a kill leaves the flags of a terminating status alone and records a period. */
  lemma KillStatus(st: Status, o: UpdateOptions)
    requires StatusOk(st) && !st.finished
    requires BeginTermination(st, o).terminating && !BeginTermination(st, o).terminated
    ensures var st2 := RegisterKill(BeginTermination(st, o), o);
            && StatusOk(st2) && !st2.finished && st2.gracePeriod >= 1 && st2.terminating && Stage(st2) == 1
            && st2.working == st.working && st2.startedTerminating == st.startedTerminating
                && st2.terminated == st.terminated
  {
  }

  lemma UpdateUnknown(p: Pod, o: UpdateOptions, cacheTerminal: bool)
    requires Inv(p) && p.status.None?
    ensures Inv(UpdatePod(p, o, cacheTerminal))
  {
    var st := FirstStatus(o.source, cacheTerminal);
    if !st.finished {
      var st1 := BeginTermination(st, o);
      if st1.terminating {
        var st2 := RegisterKill(st1, o);
        DispatchFirst(p, st2, TerminatingPodWork, WithGrace(o, st2.gracePeriod));
      } else {
        DispatchFirst(p.(h := CloseRequested(p.h, o)), st1, SyncPodWork, o.(kill := None));
      }
    }
  }

  // -------------------------------------------------------------- managePodLoop

  lemma ReceiveEffect(p: Pod, w: Worker)
    requires p.workers != [] && Last(p.workers) == w && w.pc.Waiting? && w.queue != []
    ensures WorkerStep(p, |p.workers| - 1, Receive) ==
            p.(workers := p.workers[|p.workers| - 1 := w.(queue := w.queue[1..], pc := Received(w.queue[0]))])
  {
  }

  /** The item in the channel moves into the worker's hands; the line does not change. */
  lemma ReceiveLive(p: Pod, st: Status, w: Worker, q: Pod)
    requires Live(p, st) && Last(p.workers) == w && w.pc.Waiting? && w.queue != []
    requires q == p.(workers := p.workers[|p.workers| - 1 := w.(queue := w.queue[1..], pc := Received(w.queue[0]))])
    ensures Live(q, st)
  {
    assert w.queue == [w.queue[0]];
    assert Pending(q) == Pending(p);
    assert q.workers[..|q.workers| - 1] == p.workers[..|p.workers| - 1];
  }

  lemma ReceivePreserves(p: Pod)
    requires Inv(p) && p.status.Some? && !p.status.value.finished
    ensures Inv(WorkerStep(p, |p.workers| - 1, Receive))
  {
    var w, st := Last(p.workers), p.status.value;
    if w.pc.Waiting? && w.queue != [] {
      var q := WorkerStep(p, |p.workers| - 1, Receive);
      ReceiveEffect(p, w);
      ReceiveLive(p, st, w, q);
      LiveInv(q, st);
    }
  }

  lemma ReturnPreserves(p: Pod, ok: bool)
    requires Inv(p) && p.status.Some? && !p.status.value.finished
    ensures Inv(WorkerStep(p, |p.workers| - 1, Return(ok)))
  {
    var st, pc := p.status.value, Last(p.workers).pc;
    if pc.Running? {
      var next := if ok && !pc.work.kind.SyncPodWork? then Finishing(pc.work) else Requeueing;
      var q := SetPc(p, |p.workers| - 1, next);
      ReturnLive(p, st, next, q);
      LiveInv(q, st);
    }
  }

  lemma ReturnLive(p: Pod, st: Status, next: Pc, q: Pod)
    requires Live(p, st) && Last(p.workers).pc.Running? && q == SetPc(p, |p.workers| - 1, next)
    requires next == Requeueing
             || (next == Finishing(Last(p.workers).pc.work) && !Last(p.workers).pc.work.kind.SyncPodWork?)
    ensures Live(q, st)
  {
    assert Pending(p) == Undelivered(p);
    assert Held(next) + Undelivered(p) == Undelivered(p);
    LiveMoves(p, st, q, st, next);
  }

  /** The item at the head of the line becomes the last one handled. */
  lemma HandleInLine(h: History, x: Work, rest: seq<Work>, st: Status, st': Status)
    requires HistoryOk(h) && InLine(h, [x] + rest, st) && StatusOk(st)
    requires st' == Acknowledged(st, x)
    ensures HistoryOk(Handle(h, x)) && InLine(Handle(h, x), rest, st')
    ensures x.kind.TerminatingPodWork? ==> st'.startedTerminating && !st'.terminated
  {
    var line := h.handled + ([x] + rest);
    assert h.handled + [x] + rest == line;
    FollowsPrefix(h.handled + [x], rest, h.generated);
    assert x == line[|h.handled|];
    FollowsPhases(line, h.generated);
    assert Rank(x.kind) <= Rank(Last(h.generated).kind);
    assert h.handled != [] ==> Last(h.handled) == line[|h.handled| - 1];
    assert st.terminated ==> ([x] + rest)[0].kind.TerminatedPodWork?;
    assert forall i :: 0 <= i < |rest| ==> rest[i] == ([x] + rest)[i + 1];
  }

  /** The worker's own slot changes; the line and the other workers do not. */
  lemma LiveMoves(p: Pod, st: Status, q: Pod, st': Status, pc: Pc)
    requires Live(p, st) && q.workers == p.workers[|p.workers| - 1 := Last(p.workers).(pc := pc)]
    requires q.updates == p.updates && q.undelivered == p.undelivered
    requires Busy(pc) && Busy(Last(p.workers).pc) && st'.working == st.working
    requires PcOk(q, st', pc) && InLine(q.h, Held(pc) + Undelivered(p), st')
    ensures Live(q, st')
  {
    assert Pending(q) == Held(pc) + Undelivered(p);
    assert q.workers[..|q.workers| - 1] == p.workers[..|p.workers| - 1];
  }

  function Acknowledged(st: Status, x: Work): Status {
    if x.kind.TerminatingPodWork? && st.terminating then st.(startedTerminating := true) else st
  }

  lemma StartEffect(p: Pod, st: Status, x: Work)
    requires p.status == Some(st) && p.workers != [] && Last(p.workers).pc == Received(x)
    ensures WorkerStep(p, |p.workers| - 1, Start) ==
            p.(workers := p.workers[|p.workers| - 1 := Last(p.workers).(pc := Running(x))],
               h := Call(p.h, x), status := Some(Acknowledged(st, x)))
  {
  }

  lemma StartPreserves(p: Pod)
    requires Inv(p) && p.status.Some? && !p.status.value.finished
    ensures Inv(WorkerStep(p, |p.workers| - 1, Start))
  {
    if Last(p.workers).pc.Received? {
      var st, x := p.status.value, Last(p.workers).pc.work;
      StartEffect(p, st, x);
      StartInv(p, st, x, WorkerStep(p, |p.workers| - 1, Start));
    }
  }

  lemma StartInv(p: Pod, st: Status, x: Work, q: Pod)
    requires Inv(p) && p.status == Some(st) && !st.finished && Last(p.workers).pc == Received(x)
    requires q == p.(workers := p.workers[|p.workers| - 1 := Last(p.workers).(pc := Running(x))],
                     h := Call(p.h, x), status := Some(Acknowledged(st, x)))
    ensures Inv(q)
  {
    assert Pending(p) == [x] + Undelivered(p);
    StartLive(p, st, x, q);
    LiveInv(q, Acknowledged(st, x));
  }

  lemma StartLive(p: Pod, st: Status, x: Work, q: Pod)
    requires Live(p, st) && HistoryOk(p.h) && StatusOk(st) && Last(p.workers).pc == Received(x)
    requires InLine(p.h, [x] + Undelivered(p), st)
    requires q == p.(workers := p.workers[|p.workers| - 1 := Last(p.workers).(pc := Running(x))],
                     h := Call(p.h, x), status := Some(Acknowledged(st, x)))
    ensures Live(q, Acknowledged(st, x)) && HistoryOk(q.h) && StatusOk(Acknowledged(st, x))
  {
    HandleInLine(p.h, x, Undelivered(p), st, Acknowledged(st, x));
    assert Held(Running(x)) + Undelivered(p) == Undelivered(p);
    LiveMoves(p, st, q, Acknowledged(st, x), Running(x));
  }

  lemma ReadFailsPreserves(p: Pod)
    requires Inv(p) && p.status.Some? && !p.status.value.finished
    ensures Inv(WorkerStep(p, |p.workers| - 1, ReadFails))
  {
    var q := WorkerStep(p, |p.workers| - 1, ReadFails);
    if Last(p.workers).pc.Received? && q != p {
      var st, x := p.status.value, Last(p.workers).pc.work;
      assert Pending(p) == [x] + Undelivered(p);
      HandleInLine(p.h, x, Undelivered(p), st, Acknowledged(st, x));
      assert Held(Requeueing) + Undelivered(p) == Undelivered(p);
      LiveMoves(p, st, q, st, Requeueing);
    }
  }

  /** Closing a list of completion channels changes only the notification record. */
  lemma {:induction false} CloseAllNotifies(h: History, chs: seq<nat>)
    ensures CloseAll(h, chs) == h.(notified := CloseAll(h, chs).notified, renotified := CloseAll(h, chs).renotified)
    ensures CloseAll(h, chs).notified == h.notified + (set c | c in chs)
    decreases chs
  {
    if chs != [] {
      CloseAllNotifies(CloseCompletion(h, chs[0]), chs[1..]);
      assert (set c | c in chs) == {chs[0]} + (set c | c in chs[1..]);
    }
  }

  /** Stopping the worker: its channel is closed once and nothing is left in the maps. */
  lemma StopQuiets(p: Pod, st: Status)
    requires Live(p, st) && p.fault.None?
    ensures var q := CloseUpdates(SetPc(p, |p.workers| - 1, Exited));
            Quiet(q) && q.fault.None? && q.status == p.status && q.h == p.h && |q.workers| == |p.workers|
  {
    var q := CloseUpdates(SetPc(p, |p.workers| - 1, Exited));
    forall i | 0 <= i < |q.workers| ensures q.workers[i].pc.Exited? {
      if i < |p.workers| - 1 { assert q.workers[i] == p.workers[..|p.workers| - 1][i]; }
    }
  }

  lemma CompleteStops(p: Pod)
    requires Inv(p) && p.status.Some? && !p.status.value.finished
    requires var pc := Last(p.workers).pc;
             pc.Finishing? && (pc.work.kind.TerminatedPodWork? || pc.work.options.source.RuntimeOnly?)
    ensures Inv(WorkerStep(p, |p.workers| - 1, Complete))
  {
    var st, x := p.status.value, Last(p.workers).pc.work;
    StopQuiets(p, st);
    assert Rank(x.kind) <= Rank(Last(p.h.generated).kind);
  }

  lemma CompleteContinues(p: Pod)
    requires Inv(p) && p.status.Some? && !p.status.value.finished
    requires var pc := Last(p.workers).pc;
             pc.Finishing? && !pc.work.kind.TerminatedPodWork? && !pc.work.options.source.RuntimeOnly?
    ensures Inv(WorkerStep(p, |p.workers| - 1, Complete))
  {
    var q := WorkerStep(p, |p.workers| - 1, Complete);
    var st, st' := p.status.value, q.status.value;
    var x := Last(p.workers).pc.work;
    var w := Work.Work(|p.h.generated|, TerminatedPodWork, UpdateOptions(SyncPodSync, x.options.source, None));
    CloseAllNotifies(p.h, st.notify);
    var h := CloseAll(p.h, st.notify);
    assert Pending(p) == [] + Undelivered(p);
    InLineGenerate(h, [], Undelivered(p), st, st', w);
    assert Pending(q) == [] + [w];
    assert q.workers[..|q.workers| - 1] == p.workers[..|p.workers| - 1];
  }

  /** The held item goes into the channel the worker has just emptied. */
  lemma DeliverLive(p: Pod, st: Status)
    requires Live(p, st) && Last(p.workers).pc.Requeueing? && p.undelivered.Some?
    ensures var q := CompleteWorkQueueNext(SetPc(p, |p.workers| - 1, Waiting));
            Live(q, st) && q == p.(workers := q.workers, undelivered := None) && |q.workers| == |p.workers|
  {
    var q := CompleteWorkQueueNext(SetPc(p, |p.workers| - 1, Waiting));
    assert Pending(q) == Pending(p) == Undelivered(p);
    assert q.workers[..|q.workers| - 1] == p.workers[..|p.workers| - 1];
  }

  lemma RestLive(p: Pod, st: Status)
    requires Live(p, st) && Last(p.workers).pc.Requeueing? && p.undelivered.None?
    ensures Live(SetPc(p, |p.workers| - 1, Waiting), st.(working := false))
  {
    var q := SetPc(p, |p.workers| - 1, Waiting);
    assert Pending(q) == Pending(p) == Undelivered(p);
    assert q.workers[..|q.workers| - 1] == p.workers[..|p.workers| - 1];
  }

  lemma RestInv(p: Pod, st: Status, q: Pod)
    requires Inv(p) && p.status == Some(st) && !st.finished
    requires Live(SetPc(p, |p.workers| - 1, Waiting), st.(working := false))
    requires q == SetPc(p, |p.workers| - 1, Waiting).(status := Some(st.(working := false)))
    ensures Inv(q)
  {
    assert Pending(q) == Pending(SetPc(p, |p.workers| - 1, Waiting));
    LiveInv(q, st.(working := false));
  }

  lemma QueueNextPreserves(p: Pod)
    requires Inv(p) && p.status.Some? && !p.status.value.finished
    ensures Inv(WorkerStep(p, |p.workers| - 1, QueueNext))
  {
    if Last(p.workers).pc.Requeueing? {
      var q := WorkerStep(p, |p.workers| - 1, QueueNext);
      if p.undelivered.Some? {
        DeliverLive(p, p.status.value);
        LiveInv(q, p.status.value);
      } else {
        RestLive(p, p.status.value);
        RestInv(p, p.status.value, q);
      }
    }
  }

  lemma WorkerPreserves(p: Pod, i: nat, a: Action)
    requires Inv(p)
    ensures Inv(WorkerStep(p, i, a))
  {
    if p.status.Some? && !p.status.value.finished && i == |p.workers| - 1 {
      match a
      case Receive => ReceivePreserves(p);
      case ReadFails => ReadFailsPreserves(p);
      case Start => StartPreserves(p);
      case Return(ok) => ReturnPreserves(p, ok);
      case Complete =>
        var pc := Last(p.workers).pc;
        if pc.Finishing? {
          if pc.work.kind.TerminatedPodWork? || pc.work.options.source.RuntimeOnly? { CompleteStops(p); }
          else { CompleteContinues(p); }
        }
      case QueueNext => QueueNextPreserves(p);
    } else if i < |p.workers| {
      ExitedIdle(p, i, a);
    }
  }

  /** Every worker but the live one has left its loop. */
  lemma ExitedIdle(p: Pod, i: nat, a: Action)
    requires Inv(p) && i < |p.workers|
    requires p.status.None? || p.status.value.finished || i < |p.workers| - 1
    ensures p.workers[i].pc.Exited? && WorkerStep(p, i, a) == p
  {
    if i < |p.workers| - 1 && p.status.Some? && !p.status.value.finished {
      assert p.workers[i] == p.workers[..|p.workers| - 1][i];
    }
    ExitedStep(p, i, a);
  }

  lemma ExitedStep(p: Pod, i: nat, a: Action)
    requires i < |p.workers| && p.workers[i].pc.Exited?
    ensures WorkerStep(p, i, a) == p
  {
  }

  lemma HousekeepPreserves(p: Pod, known: bool)
    requires Inv(p)
    ensures Inv(HousekeepPod(p, known))
  {
    FollowsPhases(p.h.handled, p.h.generated);
  }

  lemma StepPreserves(p: Pod, e: Event)
    requires Inv(p)
    ensures Inv(Step(p, e))
  {
    match e
    case Update(o, cacheTerminal) => UpdatePreserves(p, o, cacheTerminal);
    case Work(i, a) => WorkerPreserves(p, i, a);
    case Housekeep(known) => HousekeepPreserves(p, known);
  }

  /** The invariant holds in every state any sequence of steps can reach. */
  lemma {:induction false} RunInv(es: seq<Event>)
    ensures Inv(Run(UNKNOWN, es))
  {
    if es != [] {
      RunInv(es[..|es| - 1]);
      StepPreserves(Run(UNKNOWN, es[..|es| - 1]), es[|es| - 1]);
    }
  }
}
