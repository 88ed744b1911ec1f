/** Completion channels and grace periods of the pod worker protocol. */
module PodTermination {
  import opened Wrappers
  import opened PodLifecycle
  import opened PodLifecycleInvariant
  import opened PodLifecycleTheorems

  // ------------------------------------------------------- completion channels

  /** The completion channel a step brings with it. */
  function Requested(e: Event): Option<nat> {
    if e.Update? && e.options.kill.Some? then e.options.kill.value.completed else None
  }

  /** Every request brings a channel of its own, as `killPodNow` does. */
  ghost predicate FreshRequests(es: seq<Event>) {
    forall i, j :: 0 <= i < j < |es| && Requested(es[i]).Some? ==> Requested(es[i]) != Requested(es[j])
  }

  ghost predicate SeenBefore(c: nat, es: seq<Event>) {
    exists i :: 0 <= i < |es| && Requested(es[i]) == Some(c)
  }

  function Registered(p: Pod): seq<nat> {
    if p.status.Some? then p.status.value.notify else []
  }

  /** Registered channels are distinct, requested and still open; only a runtime-only completion
      leaves any of them registered after termination. */
  ghost predicate NotifyInv(p: Pod, es: seq<Event>) {
    && !p.h.renotified
    && (forall c :: c in p.h.notified ==> SeenBefore(c, es))
    && (forall i :: 0 <= i < |Registered(p)| ==> SeenBefore(Registered(p)[i], es) && Registered(p)[i] !in p.h.notified)
    && (forall i, j :: 0 <= i < j < |Registered(p)| ==> Registered(p)[i] != Registered(p)[j])
    && (p.status.Some? && p.status.value.terminated && Registered(p) != [] ==> RuntimeCompleted(p))
  }

  /** The pod finished because a runtime-only kill completed. */
  ghost predicate RuntimeCompleted(p: Pod) {
    p.status.Some? && p.status.value.finished && EndsInRuntimeKill(p.h.handled)
  }

  ghost predicate EndsInRuntimeKill(ws: seq<Work>) {
    ws != [] && Last(ws).kind.TerminatingPodWork? && Last(ws).options.source.RuntimeOnly?
  }

  datatype Fate = Dropped | ClosedNow | RegisteredNow

  /** What happens to the completion channel of an update, if it brings one. */
  function FateOf(p: Pod, o: UpdateOptions, cacheTerminal: bool): Fate {
    if o.source.RuntimeOnly? && !o.updateType.SyncPodKill? then Dropped
    else FateKnown(StatusFor(p, o, cacheTerminal), o)
  }

  function FateKnown(st: Status, o: UpdateOptions): Fate {
    if st.terminating && o.updateType.SyncPodCreate? then Dropped
    else if st.finished then Dropped
    else FateUnfinished(BeginTermination(st, o), o)
  }

  function FateUnfinished(st: Status, o: UpdateOptions): Fate {
    if st.terminated then (if o.source.RuntimeOnly? then Dropped else ClosedNow)
    else if st.terminating then RegisteredNow
    else ClosedNow
  }

  function Channel(o: UpdateOptions): seq<nat> {
    ToSeq(KillOf(o).completed)
  }

  function AsSet(s: seq<nat>): set<nat> { set c | c in s }

  /** How a step changes the registered and the closed channels. */
  ghost predicate ChannelsMove(p: Pod, q: Pod, registered: seq<nat>, closed: seq<nat>) {
    && Registered(q) == Registered(p) + registered
    && q.h.notified == p.h.notified + AsSet(closed)
    && q.h.renotified == (p.h.renotified || exists c :: c in closed && c in p.h.notified)
  }

  lemma DispatchChannels(p: Pod, st: Status, kind: WorkType, o: UpdateOptions)
    ensures var q := Dispatch(p, st, kind, o);
            && q.status == Some(st.(working := true))
            && q.h.notified == p.h.notified && q.h.renotified == p.h.renotified && q.h.handled == p.h.handled
  {
  }

  /** The pod `q` that an update of a pod with status `st` leaves, as far as channels are concerned. */
  ghost predicate Moved(p: Pod, q: Pod, st: Status, o: UpdateOptions, fate: Fate) {
    && q.status.Some? && q.status.value.terminated == st.terminated && q.h.handled == p.h.handled
    && (st.finished ==> q.status.value.finished)
    && q.status.value.notify == st.notify + (if fate.RegisteredNow? then Channel(o) else [])
    && q.h.notified == p.h.notified + AsSet(if fate.ClosedNow? then Channel(o) else [])
    && q.h.renotified == (p.h.renotified || (fate.ClosedNow? && Channel(o) != [] && Channel(o)[0] in p.h.notified))
    && (fate.RegisteredNow? ==> !st.terminated)
  }

  /** An update of an unfinished pod closes its completion channel, registers it or drops it. */
  lemma UnfinishedChannels(p: Pod, st: Status, o: UpdateOptions)
    ensures Moved(p, UpdateUnfinished(p, st, o), st, o, FateUnfinished(st, o))
  {
    match FateUnfinished(st, o)
    case Dropped =>
    case RegisteredNow =>
      RegisteringChannels(p, st, o);
    case ClosedNow =>
      ClosingChannels(p, st, if st.terminated then TerminatedPodWork else SyncPodWork, o);
  }

  lemma BeginKeeps(st: Status, o: UpdateOptions)
    ensures var st1 := BeginTermination(st, o);
            st1 == st.(deleted := st1.deleted, terminating := st1.terminating, evicted := st1.evicted)
  {
    if st.terminating {
    } else if o.source.RuntimeOnly? || o.source.deleting {
    } else if o.source.terminalPhase {
    } else if o.updateType.SyncPodKill? {
    }
  }

  /** Beginning to terminate concerns no channel. */
  lemma MovedFrom(p: Pod, q: Pod, st: Status, st1: Status, o: UpdateOptions, fate: Fate)
    requires Moved(p, q, st1, o, fate)
    requires st1.terminated == st.terminated && st1.finished == st.finished && st1.notify == st.notify
    ensures Moved(p, q, st, o, fate)
  {
  }

  lemma RegisteringChannels(p: Pod, st: Status, o: UpdateOptions)
    ensures var q := DispatchKill(p, st, o);
            && q.status.Some? && q.status.value.terminated == st.terminated && q.h.handled == p.h.handled
            && q.status.value.notify == st.notify + Channel(o)
            && q.h.notified == p.h.notified && q.h.renotified == p.h.renotified
  {
    var st2 := RegisterKill(st, o);
    DispatchChannels(p, st2, TerminatingPodWork, WithGrace(o, st2.gracePeriod));
  }

  lemma ClosingChannels(p: Pod, st: Status, kind: WorkType, o: UpdateOptions)
    ensures var q := DispatchClosing(p, st, kind, o);
            && q.status == Some(st.(working := true)) && q.h.handled == p.h.handled
            && q.h.notified == p.h.notified + AsSet(Channel(o))
            && q.h.renotified == (p.h.renotified || (Channel(o) != [] && Channel(o)[0] in p.h.notified))
  {
    DispatchChannels(p.(h := CloseRequested(p.h, o)), st, kind, o.(kill := None));
  }

  lemma KnownChannels(p: Pod, st: Status, o: UpdateOptions)
    ensures Moved(p, UpdateKnown(p, st, o), st, o, FateKnown(st, o))
  {
    if !st.finished && !(st.terminating && o.updateType.SyncPodCreate?) {
      var q := UpdateUnfinished(p, BeginTermination(st, o), o);
      UnfinishedChannels(p, BeginTermination(st, o), o);
      BeginKeeps(st, o);
      MovedFrom(p, q, st, BeginTermination(st, o), o, FateKnown(st, o));
    }
  }

  /** The fate of an update's completion channel, for every pod and update. */
  lemma UpdateChannels(p: Pod, o: UpdateOptions, cacheTerminal: bool)
    ensures var fate := FateOf(p, o, cacheTerminal);
            ChannelsMove(p, UpdatePod(p, o, cacheTerminal),
                         if fate.RegisteredNow? then Channel(o) else [],
                         if fate.ClosedNow? then Channel(o) else [])
    ensures Lasting(p, UpdatePod(p, o, cacheTerminal))
    ensures FateOf(p, o, cacheTerminal).RegisteredNow? ==>
              UpdatePod(p, o, cacheTerminal).status.Some? && !UpdatePod(p, o, cacheTerminal).status.value.terminated
  {
    if !(o.source.RuntimeOnly? && !o.updateType.SyncPodKill?) {
      KnownChannels(p, StatusFor(p, o, cacheTerminal), o);
    }
  }

  /** A step that neither terminates a pod with open channels nor touches how it finished. */
  ghost predicate Lasting(p: Pod, q: Pod) {
    && (q.status.Some? && q.status.value.terminated ==>
          if p.status.Some? then p.status.value.terminated else Registered(q) == [])
    && (RuntimeCompleted(p) ==> RuntimeCompleted(q))
  }

  /** A config completion closes every registered channel; a runtime-only one closes none of them. */
  lemma CompleteChannels(p: Pod, i: nat)
    requires Inv(p) && i < |p.workers| && p.workers[i].pc.Finishing?
    ensures var q, x := WorkerStep(p, i, Complete), p.workers[i].pc.work;
            p.status.Some? && q.status.Some? && p.h.handled != [] && x == Last(p.h.handled)
                && q.h.handled == p.h.handled
            && if x.kind.TerminatedPodWork? || x.options.source.RuntimeOnly?
               then q.status.value.finished && ChannelsMove(p, q, [], [])
                    && (x.kind.TerminatedPodWork? ==> p.status.value.terminated)
               else Registered(q) == [] && q.h.notified == p.h.notified + AsSet(Registered(p))
                    && q.h.renotified == CloseAll(p.h, Registered(p)).renotified
                    && !p.status.value.terminated && q.status.value.terminated
  {
    BusyIsLive(p, i);
    CloseAllNotifies(p.h, Registered(p));
    if p.workers[i].pc.work.kind.TerminatedPodWork? {
      assert Rank(p.workers[i].pc.work.kind) <= Rank(Last(p.h.generated).kind);
    }
  }

  lemma OtherActionsKeepChannels(p: Pod, i: nat, a: Action)
    requires !a.Complete?
    ensures var q := WorkerStep(p, i, a);
            ChannelsMove(p, q, [], []) && q.status.Some? == p.status.Some?
            && (p.status.Some? ==> q.status.value.terminated == p.status.value.terminated)
  {
  }

  lemma {:induction false} CloseAllOnce(h: History, chs: seq<nat>)
    requires forall i :: 0 <= i < |chs| ==> chs[i] !in h.notified
    requires forall i, j :: 0 <= i < j < |chs| ==> chs[i] != chs[j]
    ensures CloseAll(h, chs).renotified == h.renotified
    decreases chs
  {
    if chs != [] {
      CloseAllOnce(CloseCompletion(h, chs[0]), chs[1..]);
    }
  }

  lemma SeenLater(es: seq<Event>, e: Event)
    ensures forall c :: SeenBefore(c, es) ==> SeenBefore(c, es + [e])
    ensures Requested(e).Some? ==> SeenBefore(Requested(e).value, es + [e])
    ensures FreshRequests(es + [e]) && Requested(e).Some? ==> !SeenBefore(Requested(e).value, es)
    ensures FreshRequests(es + [e]) ==> FreshRequests(es)
  {
    var fs := es + [e];
    forall c: nat | SeenBefore(c, es) ensures SeenBefore(c, fs) {
      var i :| 0 <= i < |es| && Requested(es[i]) == Some(c);
      assert Requested(fs[i]) == Some(c);
    }
    assert fs[|es|] == e;
    if FreshRequests(fs) {
      forall i | 0 <= i < |es| ensures Requested(e).Some? ==> Requested(es[i]) != Requested(e) {
        assert fs[i] == es[i];
      }
      assert forall i :: 0 <= i < |es| ==> fs[i] == es[i];
    }
  }

  lemma StepNotifies(p: Pod, e: Event, es: seq<Event>)
    requires Inv(p) && NotifyInv(p, es) && FreshRequests(es + [e])
    ensures NotifyInv(Step(p, e), es + [e])
  {
    SeenLater(es, e);
    match e
    case Update(o, cacheTerminal) => UpdateNotifies(p, o, cacheTerminal, es);
    case Work(i, a) => WorkNotifies(p, i, a, es, e);
    case Housekeep(known) =>
  }

  /** Registering or closing the channel a step requests keeps the channel invariant. */
  lemma MoveNotifies(p: Pod, q: Pod, e: Event, es: seq<Event>, registered: seq<nat>, closed: seq<nat>)
    requires NotifyInv(p, es) && FreshRequests(es + [e])
    requires ChannelsMove(p, q, registered, closed) && Lasting(p, q)
    requires registered + closed == [] || registered + closed == ToSeq(Requested(e))
    requires registered != [] ==> q.status.Some? && !q.status.value.terminated
    ensures NotifyInv(q, es + [e])
  {
    SeenLater(es, e);
    assert forall c :: c in registered + closed ==> Requested(e) == Some(c);
    assert forall c :: c in registered || c in closed ==> c in registered + closed;
    assert |registered| <= |registered + closed| <= 1;
  }

  lemma UpdateNotifies(p: Pod, o: UpdateOptions, cacheTerminal: bool, es: seq<Event>)
    requires Inv(p) && NotifyInv(p, es) && FreshRequests(es + [Update(o, cacheTerminal)])
    ensures NotifyInv(UpdatePod(p, o, cacheTerminal), es + [Update(o, cacheTerminal)])
  {
    UpdateChannels(p, o, cacheTerminal);
    var fate := FateOf(p, o, cacheTerminal);
    MoveNotifies(p, UpdatePod(p, o, cacheTerminal), Update(o, cacheTerminal), es,
                 if fate.RegisteredNow? then Channel(o) else [], if fate.ClosedNow? then Channel(o) else []);
  }

  lemma WorkNotifies(p: Pod, i: nat, a: Action, es: seq<Event>, e: Event)
    requires Inv(p) && NotifyInv(p, es) && FreshRequests(es + [e])
    ensures NotifyInv(WorkerStep(p, i, a), es + [e])
  {
    if WorkerStep(p, i, a) == p {
      NothingNotifies(p, p, es, e);
    } else if p.status.None? || p.status.value.finished {
      ExitedIdle(p, i, a);
    } else if a.Complete? {
      CompleteNotifies(p, i, es, e);
    } else {
      OtherActionsKeepChannels(p, i, a);
      NothingNotifies(p, WorkerStep(p, i, a), es, e);
    }
  }

  lemma NothingNotifies(p: Pod, q: Pod, es: seq<Event>, e: Event)
    requires NotifyInv(p, es) && FreshRequests(es + [e])
    requires q == p || (ChannelsMove(p, q, [], []) && p.status.Some? && !p.status.value.finished)
    requires q.status.Some? == p.status.Some?
             && (p.status.Some? ==> q.status.value.terminated == p.status.value.terminated)
    ensures NotifyInv(q, es + [e])
  {
    SeenLater(es, e);
  }

  lemma CompleteNotifies(p: Pod, i: nat, es: seq<Event>, e: Event)
    requires Inv(p) && NotifyInv(p, es) && FreshRequests(es + [e])
    requires i < |p.workers| && p.workers[i].pc.Finishing?
    ensures NotifyInv(WorkerStep(p, i, Complete), es + [e])
  {
    CompleteChannels(p, i);
    BusyIsLive(p, i);
    var q, x := WorkerStep(p, i, Complete), p.workers[i].pc.work;
    if x.kind.TerminatedPodWork? || x.options.source.RuntimeOnly? {
      FinishedWithReason(p, q, x, es);
      FinishNotifies(p, q, es, e);
    } else {
      CloseAllOnce(p.h, Registered(p));
      CloseNotifies(p, q, es, e);
    }
  }

  lemma FinishedWithReason(p: Pod, q: Pod, x: Work, es: seq<Event>)
    requires NotifyInv(p, es) && p.status.Some? && !p.status.value.finished
    requires q.status.Some? && q.status.value.finished && Registered(q) == Registered(p)
    requires q.h.handled == p.h.handled != [] && x == Last(p.h.handled) && !x.kind.SyncPodWork?
    requires if x.kind.TerminatedPodWork? then p.status.value.terminated else x.options.source.RuntimeOnly?
    ensures Registered(q) != [] ==> RuntimeCompleted(q)
  {
  }

  lemma FinishNotifies(p: Pod, q: Pod, es: seq<Event>, e: Event)
    requires NotifyInv(p, es) && FreshRequests(es + [e]) && ChannelsMove(p, q, [], [])
    requires q.status.Some? && q.status.value.terminated && Registered(q) != [] ==> RuntimeCompleted(q)
    ensures NotifyInv(q, es + [e])
  {
    SeenLater(es, e);
  }

  lemma CloseNotifies(p: Pod, q: Pod, es: seq<Event>, e: Event)
    requires NotifyInv(p, es) && FreshRequests(es + [e])
    requires Registered(q) == [] && q.h.notified == p.h.notified + AsSet(Registered(p)) && !q.h.renotified
    ensures NotifyInv(q, es + [e])
  {
    SeenLater(es, e);
  }

  lemma {:induction false} RunNotifies(es: seq<Event>)
    requires FreshRequests(es)
    ensures NotifyInv(Run(UNKNOWN, es), es)
  {
    if es != [] {
      var fs, e := es[..|es| - 1], es[|es| - 1];
      assert fs + [e] == es;
      SeenLater(fs, e);
      RunNotifies(fs);
      RunInv(fs);
      StepNotifies(Run(UNKNOWN, fs), e, fs);
    }
  }

  /** If every request brings its own channel, none is ever closed twice; and once a pod is terminated
      a registered channel can still be open only if a runtime-only kill finished the pod. */
  lemma CompletionChannelsCloseOnce(es: seq<Event>)
    requires FreshRequests(es)
    ensures var p := Run(UNKNOWN, es);
            && !p.h.renotified
            && (p.status.Some? && p.status.value.terminated && p.status.value.notify != [] ==> RuntimeCompleted(p))
  {
    RunNotifies(es);
  }

  /** The step that terminates a tracked pod closes every registered channel, unless the item handled
      last is a runtime-only kill, and then it closes none. */
  lemma TerminationNotifies(es: seq<Event>, e: Event)
    requires FreshRequests(es)
    requires var p, q := Run(UNKNOWN, es), Step(Run(UNKNOWN, es), e);
             p.status.Some? && !p.status.value.terminated && q.status.Some? && q.status.value.terminated
    ensures var p, q := Run(UNKNOWN, es), Step(Run(UNKNOWN, es), e);
            (AsSet(Registered(p)) <= q.h.notified) <==> (Registered(p) == [] || !EndsInRuntimeKill(p.h.handled))
  {
    RunNotifies(es);
    RunInv(es);
    TerminationStep(Run(UNKNOWN, es), e, es);
  }

  lemma TerminationStep(p: Pod, e: Event, es: seq<Event>)
    requires Inv(p) && NotifyInv(p, es)
    requires p.status.Some? && !p.status.value.terminated
    requires Step(p, e).status.Some? && Step(p, e).status.value.terminated
    ensures var q := Step(p, e);
            (AsSet(Registered(p)) <= q.h.notified) <==> (Registered(p) == [] || !EndsInRuntimeKill(p.h.handled))
  {
    match e
    case Update(o, cacheTerminal) => UpdateChannels(p, o, cacheTerminal);
    case Work(i, a) =>
      if !a.Complete? { OtherActionsKeepChannels(p, i, a); }
      else if i < |p.workers| && p.workers[i].pc.Finishing? { CompletionStep(p, i, es); }
    case Housekeep(known) =>
  }

  lemma CompletionStep(p: Pod, i: nat, es: seq<Event>)
    requires Inv(p) && NotifyInv(p, es) && i < |p.workers| && p.workers[i].pc.Finishing?
    requires p.status.Some? && !p.status.value.terminated
    ensures var q := WorkerStep(p, i, Complete);
            (AsSet(Registered(p)) <= q.h.notified) <==> (Registered(p) == [] || !EndsInRuntimeKill(p.h.handled))
  {
    CompleteChannels(p, i);
    BusyIsLive(p, i);
    CompletionCloses(p, WorkerStep(p, i, Complete), p.workers[i].pc.work, es);
  }

  lemma CompletionCloses(p: Pod, q: Pod, x: Work, es: seq<Event>)
    requires NotifyInv(p, es) && p.h.handled != [] && x == Last(p.h.handled) && x.kind.TerminatingPodWork?
    requires if x.options.source.RuntimeOnly? then ChannelsMove(p, q, [], [])
             else q.h.notified == p.h.notified + AsSet(Registered(p))
    ensures (AsSet(Registered(p)) <= q.h.notified) <==> (Registered(p) == [] || !EndsInRuntimeKill(p.h.handled))
  {
    if Registered(p) != [] { assert Registered(p)[0] in AsSet(Registered(p)); }
  }

  /** A channel that is neither closed nor registered stays open for ever: so a dropped one, such as
      that of a kill that reaches a finished pod, is never closed. */
  lemma {:induction false} DroppedChannelsStayOpen(p: Pod, es: seq<Event>, c: nat)
    requires Inv(p) && c !in p.h.notified && c !in Registered(p) && !SeenBefore(c, es)
    ensures c !in Run(p, es).h.notified && c !in Registered(Run(p, es))
  {
    if es != [] {
      var fs, e := es[..|es| - 1], es[|es| - 1];
      assert forall i :: 0 <= i < |fs| ==> fs[i] == es[i];
      DroppedChannelsStayOpen(p, fs, c);
      RunFromInv(p, fs);
      StepKeepsOpen(Run(p, fs), e, c);
    }
  }

  lemma {:induction false} RunFromInv(p: Pod, es: seq<Event>)
    requires Inv(p)
    ensures Inv(Run(p, es))
  {
    if es != [] {
      RunFromInv(p, es[..|es| - 1]);
      StepPreserves(Run(p, es[..|es| - 1]), es[|es| - 1]);
    }
  }

  lemma StepKeepsOpen(p: Pod, e: Event, c: nat)
    requires Inv(p) && c !in p.h.notified && c !in Registered(p) && Requested(e) != Some(c)
    ensures c !in Step(p, e).h.notified && c !in Registered(Step(p, e))
  {
    match e
    case Update(o, cacheTerminal) => UpdateChannels(p, o, cacheTerminal);
    case Work(i, a) =>
      if !a.Complete? { OtherActionsKeepChannels(p, i, a); }
      else if i < |p.workers| && p.workers[i].pc.Finishing? { CompleteChannels(p, i); }
    case Housekeep(known) =>
  }

  /** A kill that reaches a finished pod is dropped: its channel is never closed afterwards. */
  lemma LateKillNeverCompletes(p: Pod, o: UpdateOptions, cacheTerminal: bool, c: nat, es: seq<Event>)
    requires Reachable(p) && p.status.Some? && p.status.value.finished
    requires c !in p.h.notified && c !in Registered(p) && Channel(o) == [c] && !SeenBefore(c, es)
    ensures c !in Run(UpdatePod(p, o, cacheTerminal), es).h.notified
  {
    ReachableInv(p);
    UpdatePreserves(p, o, cacheTerminal);
    DroppedChannelsStayOpen(UpdatePod(p, o, cacheTerminal), es, c);
  }

  /** The incarnation that began after `k` others was ended by a runtime-only kill. */
  ghost predicate EndedByRuntimeKill(p: Pod, k: nat) {
    if |p.h.past| > k then EndsInRuntimeKill(p.h.past[k]) else RuntimeCompleted(p)
  }

  /** The incarnation that began after `k` others can have no running container any more. */
  predicate Over(p: Pod, k: nat) {
    |p.h.past| > k || (p.status.Some? && p.status.value.terminated)
  }

  /** A channel registered in that incarnation: registered until the pod terminates, then closed, unless
      a runtime-only kill ends the pod; after the purge it stays as it was. */
  ghost predicate Followed(p: Pod, c: nat, k: nat) {
    && |p.h.past| >= k
    && if |p.h.past| > k
       then (c in p.h.notified <==> !EndsInRuntimeKill(p.h.past[k])) && c !in Registered(p)
       else
         && p.status.Some?
         && if p.status.value.terminated && !RuntimeCompleted(p) then c in p.h.notified && c !in Registered(p)
            else c in Registered(p) && c !in p.h.notified
  }

  /** A step other than a completion or a purge leaves a followed channel where it is. */
  lemma MoveFollows(p: Pod, q: Pod, c: nat, k: nat, registered: seq<nat>, closed: seq<nat>)
    requires Followed(p, c, k) && c !in registered && c !in closed
    requires ChannelsMove(p, q, registered, closed) && q.h.past == p.h.past
    requires |p.h.past| == k ==>
               q.status.Some? && q.status.value.terminated == p.status.value.terminated
               && (RuntimeCompleted(q) <==> RuntimeCompleted(p))
    ensures Followed(q, c, k)
  {
  }

  lemma UpdateFollows(p: Pod, o: UpdateOptions, cacheTerminal: bool, c: nat, k: nat)
    requires Inv(p) && Followed(p, c, k) && c !in Channel(o)
    ensures Followed(UpdatePod(p, o, cacheTerminal), c, k)
  {
    var q, fate := UpdatePod(p, o, cacheTerminal), FateOf(p, o, cacheTerminal);
    UpdateChannels(p, o, cacheTerminal);
    UpdateKeepsPast(p, o, cacheTerminal);
    if p.status.Some? {
      UpdateKeepsEnd(p, o, cacheTerminal);
    }
    MoveFollows(p, q, c, k, if fate.RegisteredNow? then Channel(o) else [], if fate.ClosedNow? then Channel(o) else []);
  }

  lemma UpdateKeepsEnd(p: Pod, o: UpdateOptions, cacheTerminal: bool)
    requires Inv(p) && p.status.Some?
    ensures var q := UpdatePod(p, o, cacheTerminal);
            && q.status.Some? && q.status.value.terminated == p.status.value.terminated
            && q.status.value.finished == p.status.value.finished && q.h.handled == p.h.handled
  {
    var st := p.status.value;
    UpdateKeepsItems(p, o, cacheTerminal);
    if !st.finished && !(st.terminating && o.updateType.SyncPodCreate?) {
      BeginKeeps(st, o);
      UnfinishedKeepsEnd(p, BeginTermination(st, o), o);
    }
  }

  lemma UnfinishedKeepsEnd(p: Pod, st: Status, o: UpdateOptions)
    ensures var q := UpdateUnfinished(p, st, o);
            q.status.Some? && q.status.value.terminated == st.terminated && q.status.value.finished == st.finished
  {
    match FateUnfinished(st, o)
    case Dropped =>
    case RegisteredNow =>
      var st2 := RegisterKill(st, o);
      DispatchChannels(p, st2, TerminatingPodWork, WithGrace(o, st2.gracePeriod));
    case ClosedNow =>
      ClosingChannels(p, st, if st.terminated then TerminatedPodWork else SyncPodWork, o);
  }

  lemma CompleteFollows(p: Pod, i: nat, c: nat, k: nat)
    requires Inv(p) && Followed(p, c, k) && i < |p.workers| && p.workers[i].pc.Finishing?
    ensures Followed(WorkerStep(p, i, Complete), c, k)
  {
    CompleteChannels(p, i);
    CompleteKeepsStage(p, i);
    BusyIsLive(p, i);
  }

  lemma WorkFollows(p: Pod, i: nat, a: Action, c: nat, k: nat)
    requires Inv(p) && Followed(p, c, k)
    ensures Followed(WorkerStep(p, i, a), c, k)
  {
    if WorkerStep(p, i, a) != p {
      if p.status.None? || p.status.value.finished {
        ExitedIdle(p, i, a);
      } else if a.Complete? {
        CompleteFollows(p, i, c, k);
      } else {
        OtherActionsKeepChannels(p, i, a);
        WorkerKeepsStage(p, i, a);
        OthersDoNotFinish(p, i, a);
        MoveFollows(p, WorkerStep(p, i, a), c, k, [], []);
      }
    }
  }

  lemma OthersDoNotFinish(p: Pod, i: nat, a: Action)
    requires !a.Complete? && p.status.Some? && !p.status.value.finished
    ensures !RuntimeCompleted(WorkerStep(p, i, a))
  {
  }

  lemma StepFollows(p: Pod, e: Event, c: nat, k: nat)
    requires Inv(p) && Followed(p, c, k) && Requested(e) != Some(c)
    ensures Followed(Step(p, e), c, k)
  {
    match e
    case Update(o, cacheTerminal) => UpdateFollows(p, o, cacheTerminal, c, k);
    case Work(i, a) => WorkFollows(p, i, a, c, k);
    case Housekeep(known) =>
  }

  lemma {:induction false} RunFollows(p: Pod, es: seq<Event>, c: nat, k: nat)
    requires Inv(p) && Followed(p, c, k) && !SeenBefore(c, es)
    ensures Followed(Run(p, es), c, k)
  {
    if es != [] {
      var fs, e := es[..|es| - 1], es[|es| - 1];
      assert forall i :: 0 <= i < |fs| ==> fs[i] == es[i];
      RunFollows(p, fs, c, k);
      RunFromInv(p, fs);
      StepFollows(Run(p, fs), e, c, k);
    }
  }

  /** The requests whose completion channel is dropped: an update without a kill for a pod that is only in
      the runtime; a create for a terminating pod; anything for a finished pod; and a kill of a pod only in
      the runtime for one that is terminated but not finished. */
  predicate DropsRequest(p: Pod, o: UpdateOptions, cacheTerminal: bool) {
    || (o.source.RuntimeOnly? && !o.updateType.SyncPodKill?)
    || (p.status.Some? && p.status.value.terminating && o.updateType.SyncPodCreate?)
    || (p.status.Some? && p.status.value.finished)
    || (p.status.Some? && p.status.value.terminated && o.source.RuntimeOnly?)
    || (p.status.None? && o.source.Config? && o.source.terminalPhase && cacheTerminal)
  }

  lemma FateExactly(st: Status, o: UpdateOptions)
    requires StatusOk(st)
    ensures FateKnown(st, o).Dropped? <==>
            (st.terminating && o.updateType.SyncPodCreate?) || st.finished || (st.terminated && o.source.RuntimeOnly?)
    ensures FateKnown(st, o).RegisteredNow? <==>
            !FateKnown(st, o).Dropped? && !st.terminated && BeginTermination(st, o).terminating
  {
    BeginKeeps(st, o);
  }

  lemma KnownStatusOk(p: Pod)
    requires Inv(p) && p.status.Some?
    ensures StatusOk(p.status.value)
  {
  }

  lemma DroppedExactly(p: Pod, o: UpdateOptions, cacheTerminal: bool)
    requires p.status.Some? ==> StatusOk(p.status.value)
    ensures FateOf(p, o, cacheTerminal).Dropped? <==> DropsRequest(p, o, cacheTerminal)
  {
    FateExactly(StatusFor(p, o, cacheTerminal), o);
  }

  /** The update finds the pod terminating or makes it so. */
  predicate Terminates(p: Pod, o: UpdateOptions) {
    || (p.status.Some? && p.status.value.terminating)
    || o.source.RuntimeOnly? || o.source.deleting || o.source.terminalPhase || o.updateType.SyncPodKill?
  }

  lemma RegisteredExactly(p: Pod, o: UpdateOptions, cacheTerminal: bool)
    requires p.status.Some? ==> StatusOk(p.status.value)
    requires !DropsRequest(p, o, cacheTerminal)
    ensures FateOf(p, o, cacheTerminal).RegisteredNow? <==>
            Terminates(p, o) && !(p.status.Some? && p.status.value.terminated)
  {
    DroppedExactly(p, o, cacheTerminal);
    FateExactly(StatusFor(p, o, cacheTerminal), o);
  }

  /** Once the pod of a request can have no running container, now or after it is purged and whatever
      happened in between, the request's completion channel is open if and only if the request was dropped
      when it came, or it was registered and a runtime-only kill ended the pod. */
  lemma CompletionStaysOpenExactly(p: Pod, o: UpdateOptions, cacheTerminal: bool, c: nat, es: seq<Event>)
    requires Reachable(p) && Channel(o) == [c] && c !in p.h.notified && c !in Registered(p) && !SeenBefore(c, es)
    requires Over(Run(UpdatePod(p, o, cacheTerminal), es), |p.h.past|)
    ensures var q := Run(UpdatePod(p, o, cacheTerminal), es);
            c !in q.h.notified <==>
            || DropsRequest(p, o, cacheTerminal)
            || (&& Terminates(p, o) && !(p.status.Some? && p.status.value.terminated)
                && EndedByRuntimeKill(q, |p.h.past|))
  {
    var r, k := UpdatePod(p, o, cacheTerminal), |p.h.past|;
    ReachableInv(p);
    UpdatePreserves(p, o, cacheTerminal);
    UpdateChannels(p, o, cacheTerminal);
    UpdateKeepsPast(p, o, cacheTerminal);
    if p.status.Some? { KnownStatusOk(p); }
    DroppedExactly(p, o, cacheTerminal);
    if !DropsRequest(p, o, cacheTerminal) {
      RegisteredExactly(p, o, cacheTerminal);
    }
    match FateOf(p, o, cacheTerminal)
    case Dropped => DroppedChannelsStayOpen(r, es, c);
    case ClosedNow => ClosedStaysClosed(r, es, c);
    case RegisteredNow => RunFollows(r, es, c, k);
  }

  lemma {:induction false} ClosedStaysClosed(p: Pod, es: seq<Event>, c: nat)
    requires Inv(p) && c in p.h.notified
    ensures c in Run(p, es).h.notified
  {
    if es != [] {
      var fs, e := es[..|es| - 1], es[|es| - 1];
      ClosedStaysClosed(p, fs, c);
      RunFromInv(p, fs);
      StepKeepsClosed(Run(p, fs), e, c);
    }
  }

  lemma StepKeepsClosed(p: Pod, e: Event, c: nat)
    requires Inv(p) && c in p.h.notified
    ensures c in Step(p, e).h.notified
  {
    match e
    case Update(o, cacheTerminal) => UpdateChannels(p, o, cacheTerminal);
    case Work(i, a) =>
      if !a.Complete? { OtherActionsKeepChannels(p, i, a); }
      else if i < |p.workers| && p.workers[i].pc.Finishing? { CompleteChannels(p, i); }
    case Housekeep(known) =>
  }

  /** So a completion channel can stay open although the pod can have no running container: here the
      first update of a pod in a terminal phase carries channel 7. */
  lemma CompletionLeftOpen()
    ensures var o := UpdateOptions(SyncPodKill, Config(false, true, None, None),
                                   Some(KillOptions(Some(7), false, None, None)));
            var p := Run(UNKNOWN, [Update(o, true)]);
            p.status.Some? && p.status.value.terminated && 7 !in p.h.notified && 7 !in Registered(p)
  {
    var o := UpdateOptions(SyncPodKill, Config(false, true, None, None), Some(KillOptions(Some(7), false, None, None)));
    assert [Update(o, true)][..0] == [];
    assert Run(UNKNOWN, []) == UNKNOWN;
  }

  // ---------------------------------------------------------- what the worker is told

  /** `w` tells the worker what the update said, in the stage `st` leaves. */
  ghost predicate Tells(w: Work, st: Status, o: UpdateOptions) {
    && w.options.updateType == o.updateType && w.options.source == o.source
    && Rank(w.kind) == Stage(st)
    && (if w.kind.TerminatingPodWork?
        then w.options.kill == Some(KillOf(o).(grace := Some(st.gracePeriod)))
        else w.options.kill == None)
  }

  /** One more item was generated, which tells what the update said. */
  ghost predicate Told(p: Pod, q: Pod, o: UpdateOptions) {
    && q.status.Some? && |q.h.generated| == |p.h.generated| + 1
    && q.h.generated[..|p.h.generated|] == p.h.generated
    && Tells(Last(q.h.generated), q.status.value, o)
  }

  lemma DispatchGenerates(p: Pod, st: Status, kind: WorkType, o: UpdateOptions)
    ensures Dispatch(p, st, kind, o).h.generated == p.h.generated + [Work.Work(|p.h.generated|, kind, o)]
    ensures Dispatch(p, st, kind, o).status == Some(st.(working := true))
  {
  }

  lemma UnfinishedGenerates(p: Pod, st: Status, o: UpdateOptions)
    requires st.terminated ==> st.terminating
    ensures var q := UpdateUnfinished(p, st, o);
            if FateUnfinished(st, o).Dropped? then q.h.generated == p.h.generated else Told(p, q, o)
  {
    var closed := p.(h := CloseRequested(p.h, o));
    var st2 := RegisterKill(st, o);
    match FateUnfinished(st, o)
    case Dropped =>
    case RegisteredNow =>
      DispatchGenerates(p, st2, TerminatingPodWork, WithGrace(o, st2.gracePeriod));
    case ClosedNow =>
      DispatchGenerates(closed, st, if st.terminated then TerminatedPodWork else SyncPodWork, o.(kill := None));
  }

  lemma UpdateGenerates(p: Pod, o: UpdateOptions, cacheTerminal: bool)
    requires p.status.Some? ==> StatusOk(p.status.value)
    ensures var q := UpdatePod(p, o, cacheTerminal);
            if FateOf(p, o, cacheTerminal).Dropped? then q.h.generated == p.h.generated else Told(p, q, o)
  {
    var st := StatusFor(p, o, cacheTerminal);
    BeginKeeps(st, o);
    TerminationBegins(st, o);
    UnfinishedGenerates(p, BeginTermination(st, o), o);
  }

  /** An update that is not dropped generates one item, the latest, with its own pod and update type, of the
      kind its stage asks for; only a terminating item carries a kill, with the period recorded. */
  lemma UpdateTells(p: Pod, o: UpdateOptions, cacheTerminal: bool)
    requires Inv(p)
    ensures var q := UpdatePod(p, o, cacheTerminal);
            if DropsRequest(p, o, cacheTerminal) then q.h.generated == p.h.generated else Told(p, q, o)
  {
    if p.status.Some? { KnownStatusOk(p); }
    DroppedExactly(p, o, cacheTerminal);
    UpdateGenerates(p, o, cacheTerminal);
  }

  // ------------------------------------------------------------ why it terminates

  /** Deletion and eviction are recorded only of terminating pods, and never both. */
  predicate OneCause(st: Status) {
    (st.deleted || st.evicted ==> st.terminating) && !(st.deleted && st.evicted)
  }

  predicate CauseOk(p: Pod) { p.status.Some? ==> OneCause(p.status.value) }

  /** Whether it was deleted or evicted. */
  function Cause(st: Status): (bool, bool) { (st.deleted, st.evicted) }

  /** Which update records which cause: the first to find the pod not terminating, as deleted if the pod is
      only in the runtime or is being deleted, else as evicted if it is a kill that says so and the pod is not
      in a terminal phase. */
  lemma CauseExactly(st: Status, o: UpdateOptions)
    ensures var gone := o.source.RuntimeOnly? || o.source.deleting;
            var done := o.source.Config? && o.source.terminalPhase;
            var st1 := BeginTermination(st, o);
            && (st1.terminating <==> st.terminating || gone || done || o.updateType.SyncPodKill?)
            && (st1.deleted <==> st.deleted || (!st.terminating && gone))
            && (st1.evicted <==>
                st.evicted || (!st.terminating && !gone && !done && o.updateType.SyncPodKill? && KillOf(o).evict))
  {
  }

  lemma UnfinishedKeepsCause(p: Pod, st: Status, o: UpdateOptions)
    ensures var q := UpdateUnfinished(p, st, o);
            q.status.Some? && Cause(q.status.value) == Cause(st) && q.status.value.terminating == st.terminating
  {
    match FateUnfinished(st, o)
    case Dropped =>
    case RegisteredNow =>
      var st2 := RegisterKill(st, o);
      DispatchChannels(p, st2, TerminatingPodWork, WithGrace(o, st2.gracePeriod));
    case ClosedNow =>
      ClosingChannels(p, st, if st.terminated then TerminatedPodWork else SyncPodWork, o);
  }

  lemma BeginFixesCause(st: Status, o: UpdateOptions)
    requires OneCause(st)
    ensures OneCause(BeginTermination(st, o)) && (st.terminating ==> BeginTermination(st, o) == st)
  {
  }

  lemma KnownFixesCause(p: Pod, st: Status, o: UpdateOptions)
    requires OneCause(st)
    ensures var q := UpdateKnown(p, st, o);
            && q.status.Some? && OneCause(q.status.value)
            && (st.terminating ==> q.status.value.terminating && Cause(q.status.value) == Cause(st))
  {
    if !st.finished && !(st.terminating && o.updateType.SyncPodCreate?) {
      BeginFixesCause(st, o);
      UnfinishedKeepsCause(p, BeginTermination(st, o), o);
    }
  }

  lemma UpdateFixesCause(p: Pod, o: UpdateOptions, cacheTerminal: bool)
    requires CauseOk(p)
    ensures var q := UpdatePod(p, o, cacheTerminal);
            && CauseOk(q)
            && (p.status.Some? && p.status.value.terminating ==>
                  q.status.Some? && q.status.value.terminating && Cause(q.status.value) == Cause(p.status.value))
  {
    KnownFixesCause(p, StatusFor(p, o, cacheTerminal), o);
  }

  lemma WorkerKeepsCause(p: Pod, i: nat, a: Action)
    ensures var q := WorkerStep(p, i, a);
            && q.status.Some? == p.status.Some?
            && (p.status.Some? ==>
                  Cause(q.status.value) == Cause(p.status.value)
                      && q.status.value.terminating == p.status.value.terminating)
  {
  }

  /** The first cause of a termination stands: no later step withdraws or changes it before the purge, and
      no pod is ever recorded as both deleted and evicted. */
  lemma {:induction false} FirstCauseStands(es: seq<Event>, e: Event)
    ensures CauseOk(Run(UNKNOWN, es))
    ensures var p, q := Run(UNKNOWN, es), Step(Run(UNKNOWN, es), e);
            p.status.Some? && p.status.value.terminating && q.status.Some? ==>
              q.status.value.terminating && Cause(q.status.value) == Cause(p.status.value)
    decreases |es|
  {
    var p := Run(UNKNOWN, es);
    if es != [] {
      var fs, f := es[..|es| - 1], es[|es| - 1];
      FirstCauseStands(fs, f);
      StepKeepsCause(Run(UNKNOWN, fs), f);
    }
    StepKeepsCause(p, e);
  }

  lemma StepKeepsCause(p: Pod, e: Event)
    requires CauseOk(p)
    ensures CauseOk(Step(p, e))
    ensures p.status.Some? && p.status.value.terminating && Step(p, e).status.Some? ==>
              Step(p, e).status.value.terminating && Cause(Step(p, e).status.value) == Cause(p.status.value)
  {
    match e
    case Update(o, cacheTerminal) => UpdateFixesCause(p, o, cacheTerminal);
    case Work(i, a) => WorkerKeepsCause(p, i, a);
    case Housekeep(known) =>
  }

  // -------------------------------------------------------------- grace period

  function Min(a: int, b: int): int { if a < b then a else b }

  function AtLeastOne(g: int): int { if g < 1 then 1 else g }

  /** The overrides an update can bring: the API server's and the kill's. */
  function Overrides(o: UpdateOptions): seq<int> {
    (if o.source.Config? then ToSeq(o.source.deletionGrace) else []) + ToSeq(KillOf(o).grace)
  }

  function Least(first: int, os: seq<int>): int
    decreases os
  {
    if os == [] then first else Least(Min(first, os[0]), os[1..])
  }

  ghost predicate NonZero(os: seq<int>) {
    forall i :: 0 <= i < |os| ==> os[i] != 0
  }

  /** With nonzero overrides the recorded period becomes the least of itself and them, at least 1. */
  lemma GraceIsLeast(recorded: int, o: UpdateOptions)
    requires recorded >= 1 && NonZero(Overrides(o))
    ensures EffectiveGrace(recorded, o.source, KillOf(o).grace) == AtLeastOne(Least(recorded, Overrides(o)))
  {
    var api := if o.source.Config? then ToSeq(o.source.deletionGrace) else [];
    var kill := ToSeq(KillOf(o).grace);
    assert api != [] ==> Overrides(o)[0] == api[0];
    assert kill != [] ==> Overrides(o)[|api|] == kill[0];
    LeastAppend(recorded, api, kill);
  }

  /** The first period: the least override if there is one, else the pod's own, at least 1. */
  lemma FirstGrace(o: UpdateOptions)
    requires NonZero(Overrides(o))
    ensures var own := if o.source.Config? && o.source.specGrace.Some? then o.source.specGrace.value else 0;
            var os := Overrides(o);
            EffectiveGrace(0, o.source, KillOf(o).grace) ==
              AtLeastOne(if os == [] then own else Least(os[0], os[1..]))
  {
    var os := Overrides(o);
    var api := if o.source.Config? then ToSeq(o.source.deletionGrace) else [];
    var kill := ToSeq(KillOf(o).grace);
    assert os == api + kill;
    assert api != [] ==> os[0] == api[0] != 0;
    assert kill != [] ==> os[|api|] == kill[0] != 0;
    assert |os| == 2 ==> os[1..] == kill && kill[1..] == [];
    assert |os| == 1 ==> os[1..] == [];
  }

  /** What registering a kill records: at least one second, the least of the overrides once a period is
      recorded and none is zero, and the request's channel after those registered before. */
  lemma KillIsRegistered(st: Status, o: UpdateOptions)
    ensures RegisterKill(st, o).gracePeriod >= 1
    ensures st.gracePeriod >= 1 && NonZero(Overrides(o)) ==>
              RegisterKill(st, o).gracePeriod == AtLeastOne(Least(st.gracePeriod, Overrides(o)))
    ensures RegisterKill(st, o).notify == st.notify + Channel(o)
    ensures RegisterKill(st, o).statusFns == st.statusFns + ToSeq(KillOf(o).statusFn)
  {
    if st.gracePeriod >= 1 && NonZero(Overrides(o)) {
      GraceIsLeast(st.gracePeriod, o);
    }
  }

  /** The period grows exactly when a zero override reads as unset and a larger value follows it. */
  lemma GraceGrowsExactly(recorded: int, source: Source, override: Option<int>)
    requires recorded >= 1
    ensures var d := if source.Config? then source.deletionGrace else None;
            var spec := if source.Config? then source.specGrace else None;
            EffectiveGrace(recorded, source, override) > recorded
            <==>
            || (d == Some(0) && override.Some? && override.value > recorded)
            || (spec.Some? && spec.value > recorded
                && ((d == Some(0) && (override.None? || override.value == 0))
                    || (override == Some(0) && (d.None? || d.value > 0))))
  {
  }

  /** And it does grow: a kill records 30 seconds, and an update whose deletion grace is 0 reads as unset and
      records the 60 seconds of the pod's spec. */
  lemma RecordedGraceGrows(kill: UpdateOptions, update: UpdateOptions)
    requires kill == UpdateOptions(SyncPodKill, Config(false, false, None, None),
                                   Some(KillOptions(None, false, None, Some(30))))
    requires update == UpdateOptions(SyncPodUpdate, Config(true, false, Some(0), Some(60)), None)
    ensures var p := Run(UNKNOWN, [Update(kill, false)]);
            p.status.Some? && p.status.value.terminating && p.status.value.gracePeriod == 30
    ensures var q := Run(UNKNOWN, [Update(kill, false), Update(update, false)]);
            q.status.Some? && q.status.value.gracePeriod == 60
  {
    var one, two := [Update(kill, false)], [Update(kill, false), Update(update, false)];
    assert one[..0] == [] && two[..1] == one;
    assert Run(UNKNOWN, []) == UNKNOWN;
    var p := UpdatePod(UNKNOWN, kill, false);
    assert Run(UNKNOWN, one) == p && Run(UNKNOWN, two) == UpdatePod(p, update, false);
    KnownGrace(UNKNOWN, FRESH, kill);
    KilledIsTerminating(kill);
    KnownGrace(p, p.status.value, update);
  }

  lemma KilledIsTerminating(kill: UpdateOptions)
    requires kill.updateType.SyncPodKill? && kill.source == Config(false, false, None, None)
    ensures var p := UpdatePod(UNKNOWN, kill, false);
            p.status.Some? && p.status.value.terminating && !p.status.value.terminated && !p.status.value.finished
  {
    UnfinishedKeepsCause(UNKNOWN, BeginTermination(FRESH, kill), kill);
    UnfinishedKeepsEnd(UNKNOWN, BeginTermination(FRESH, kill), kill);
  }

  lemma {:induction false} LeastAppend(first: int, os: seq<int>, qs: seq<int>)
    ensures Least(first, os + qs) == Least(Least(first, os), qs)
    decreases os
  {
    if os == [] {
      assert os + qs == qs;
    } else {
      LeastAppend(Min(first, os[0]), os[1..], qs);
      assert (os + qs)[1..] == os[1..] + qs;
    }
  }

  lemma {:induction false} LeastFloored(g: int, os: seq<int>)
    ensures AtLeastOne(Least(AtLeastOne(g), os)) == AtLeastOne(Least(g, os))
    decreases os
  {
    if os != [] {
      LeastFloored(Min(AtLeastOne(g), os[0]), os[1..]);
      LeastFloored(Min(g, os[0]), os[1..]);
    }
  }

  /** The overrides that reach a pod along a run, in order. */
  function Applied(p: Pod, es: seq<Event>): seq<int> {
    if es == [] then []
    else
      var fs, e := es[..|es| - 1], es[|es| - 1];
      Applied(p, fs) +
      (if e.Update? && FateOf(Run(p, fs), e.options, e.cacheTerminal).RegisteredNow? then Overrides(e.options) else [])
  }

  ghost predicate NonZeroRequests(es: seq<Event>) {
    forall i :: 0 <= i < |es| && es[i].Update? ==> NonZero(Overrides(es[i].options))
  }

  lemma KnownGrace(p: Pod, st: Status, o: UpdateOptions)
    ensures var q := UpdateKnown(p, st, o);
            q.status.Some? && q.status.value.gracePeriod ==
              (if FateKnown(st, o).RegisteredNow? then EffectiveGrace(st.gracePeriod, o.source, KillOf(o).grace)
               else st.gracePeriod)
  {
    if !st.finished && !(st.terminating && o.updateType.SyncPodCreate?) {
      BeginKeeps(st, o);
      UnfinishedGrace(p, BeginTermination(st, o), o);
    }
  }

  lemma UnfinishedGrace(p: Pod, st: Status, o: UpdateOptions)
    ensures var q := UpdateUnfinished(p, st, o);
            q.status.Some? && q.status.value.gracePeriod ==
              (if FateUnfinished(st, o).RegisteredNow? then EffectiveGrace(st.gracePeriod, o.source, KillOf(o).grace)
               else st.gracePeriod)
  {
    match FateUnfinished(st, o)
    case Dropped =>
    case RegisteredNow =>
      var st2 := RegisterKill(st, o);
      DispatchChannels(p, st2, TerminatingPodWork, WithGrace(o, st2.gracePeriod));
    case ClosedNow =>
      ClosingChannels(p, st, if st.terminated then TerminatedPodWork else SyncPodWork, o);
  }

  lemma StepGrace(p: Pod, e: Event)
    requires Inv(p) && p.status.Some? && Step(p, e).status.Some?
    ensures Step(p, e).status.value.gracePeriod ==
              (if e.Update? && FateOf(p, e.options, e.cacheTerminal).RegisteredNow?
               then EffectiveGrace(p.status.value.gracePeriod, e.options.source, KillOf(e.options).grace)
               else p.status.value.gracePeriod)
  {
    match e
    case Update(o, cacheTerminal) => KnownGrace(p, StatusFor(p, o, cacheTerminal), o);
    case Work(i, a) => WorkerKeepsGrace(p, i, a);
    case Housekeep(known) =>
  }

  lemma WorkerKeepsGrace(p: Pod, i: nat, a: Action)
    requires p.status.Some?
    ensures WorkerStep(p, i, a).status.Some?
    ensures WorkerStep(p, i, a).status.value.gracePeriod == p.status.value.gracePeriod
  {
  }

  /** From the moment a period is recorded, over any run within the incarnation whose overrides are all
      nonzero, the period is the least of the first value and every override that reached the pod,
      floored at 1; in particular it never grows. */
  lemma {:induction false} GraceOverRun(p: Pod, es: seq<Event>)
    requires Reachable(p) && p.status.Some? && p.status.value.gracePeriod >= 1
    requires NonZeroRequests(es)
    requires Run(p, es).status.Some? && Run(p, es).h.past == p.h.past
    ensures Run(p, es).status.value.gracePeriod == AtLeastOne(Least(p.status.value.gracePeriod, Applied(p, es)))
    ensures 1 <= Run(p, es).status.value.gracePeriod <= p.status.value.gracePeriod
  {
    var g := p.status.value.gracePeriod;
    ReachableInv(p);
    if es != [] {
      var fs, e := es[..|es| - 1], es[|es| - 1];
      assert forall i :: 0 <= i < |fs| ==> fs[i] == es[i];
      var r := Run(p, fs);
      RunFromInv(p, fs);
      SameIncarnation(p, fs, e);
      GraceOverRun(p, fs);
      StepGrace(r, e);
      var os := Applied(p, fs);
      var qs := if e.Update? && FateOf(r, e.options, e.cacheTerminal).RegisteredNow? then Overrides(e.options) else [];
      assert Applied(p, es) == os + qs;
      LeastAppend(g, os, qs);
      LeastFloored(Least(g, os), qs);
      if e.Update? { GraceIsLeast(r.status.value.gracePeriod, e.options); }
      LeastBounded(g, os + qs);
    }
  }

  lemma {:induction false} LeastBounded(first: int, os: seq<int>)
    ensures Least(first, os) <= first
    decreases os
  {
    if os != [] { LeastBounded(Min(first, os[0]), os[1..]); }
  }

  /** If the incarnation is the same after a step it was the same before it. */
  lemma SameIncarnation(p: Pod, fs: seq<Event>, e: Event)
    requires Inv(p) && p.status.Some? && Run(p, fs + [e]).status.Some? && Run(p, fs + [e]).h.past == p.h.past
    ensures Run(p, fs).status.Some? && Run(p, fs).h.past == p.h.past
  {
    assert (fs + [e])[..|fs|] == fs;
    PastGrows(p, fs);
    PastGrowsStep(Run(p, fs), e);
  }

  lemma PastGrowsStep(p: Pod, e: Event)
    ensures |p.h.past| <= |Step(p, e).h.past| && Step(p, e).h.past[..|p.h.past|] == p.h.past
    ensures p.status.Some? && Step(p, e).status.None? ==> |Step(p, e).h.past| > |p.h.past|
  {
    match e
    case Update(o, cacheTerminal) => UpdateKeepsPast(p, o, cacheTerminal);
    case Work(i, a) => WorkerKeepsStage(p, i, a);
    case Housekeep(known) =>
  }

  lemma {:induction false} PastGrows(p: Pod, es: seq<Event>)
    requires p.status.Some?
    ensures |p.h.past| <= |Run(p, es).h.past| && Run(p, es).h.past[..|p.h.past|] == p.h.past
    ensures Run(p, es).status.None? ==> |Run(p, es).h.past| > |p.h.past|
  {
    if es != [] {
      var fs, e := es[..|es| - 1], es[|es| - 1];
      PastGrows(p, fs);
      PastGrowsStep(Run(p, fs), e);
      var r, q := Run(p, fs), Step(Run(p, fs), e);
      assert q.h.past[..|r.h.past|][..|p.h.past|] == q.h.past[..|p.h.past|];
    }
  }
}
