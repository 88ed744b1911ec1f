/** A pod terminates, and finishes, only by a sync function that returned without error. */
module PodSuccess {
  import opened Wrappers
  import opened PodLifecycle
  import opened PodLifecycleInvariant
  import opened PodLifecycleTheorems
  import opened PodTermination

  /** At step `k` of the run, in the incarnation after `n` others, the sync function called for `x` returned
      without error. */
  ghost predicate SucceedsAt(es: seq<Event>, k: nat, n: nat, x: Work) {
    && k < |es| && es[k].Work? && es[k].action == Return(true)
    && var p := Run(UNKNOWN, es[..k]);
       es[k].worker < |p.workers| && p.workers[es[k].worker].pc == Running(x) && |p.h.past| == n
  }

  ghost predicate Succeeded(es: seq<Event>, n: nat, x: Work) {
    exists k: nat :: SucceedsAt(es, k, n, x)
  }

  /** Some sync function for a termination succeeded. */
  ghost predicate TerminatingSucceeded(es: seq<Event>, n: nat) {
    exists x: Work :: x.kind.TerminatingPodWork? && Succeeded(es, n, x)
  }

  /** Some sync function that ends a pod succeeded: for a terminated pod, or for one known only to the
      runtime. */
  ghost predicate EndingSucceeded(es: seq<Event>, n: nat) {
    exists x: Work ::
      && (x.kind.TerminatedPodWork? || (x.kind.TerminatingPodWork? && x.options.source.RuntimeOnly?))
      && Succeeded(es, n, x)
  }

  lemma SucceededLater(es: seq<Event>, e: Event, n: nat, x: Work)
    requires Succeeded(es, n, x)
    ensures Succeeded(es + [e], n, x)
  {
    var k: nat :| SucceedsAt(es, k, n, x);
    assert (es + [e])[..k] == es[..k] && (es + [e])[k] == es[k];
    assert SucceedsAt(es + [e], k, n, x);
  }

  lemma EndsLater(es: seq<Event>, e: Event, n: nat)
    ensures TerminatingSucceeded(es, n) ==> TerminatingSucceeded(es + [e], n)
    ensures EndingSucceeded(es, n) ==> EndingSucceeded(es + [e], n)
  {
    if TerminatingSucceeded(es, n) {
      var x: Work :| x.kind.TerminatingPodWork? && Succeeded(es, n, x);
      SucceededLater(es, e, n, x);
    }
    if EndingSucceeded(es, n) {
      var x: Work :| (x.kind.TerminatedPodWork? || (x.kind.TerminatingPodWork? && x.options.source.RuntimeOnly?))
               && Succeeded(es, n, x);
      SucceededLater(es, e, n, x);
    }
  }

  /** Every worker about to complete an item had it succeed. */
  ghost predicate FinishingEarned(p: Pod, es: seq<Event>) {
    forall i :: 0 <= i < |p.workers| && p.workers[i].pc.Finishing? ==>
      Succeeded(es, |p.h.past|, p.workers[i].pc.work)
  }

  /** A pod that terminated, or finished, after generating work, earned it. */
  ghost predicate EndEarned(p: Pod, es: seq<Event>) {
    p.status.Some? && p.h.generated != [] ==>
      && (p.status.value.terminated ==> TerminatingSucceeded(es, |p.h.past|))
      && (p.status.value.finished ==> EndingSucceeded(es, |p.h.past|))
  }

  // ------------------------------------------------------------------ step by step

  /** A step that lets no worker begin to complete an item. */
  ghost predicate NoNewFinishing(p: Pod, q: Pod) {
    && |q.h.past| == |p.h.past|
    && forall i :: 0 <= i < |q.workers| && q.workers[i].pc.Finishing? ==>
         i < |p.workers| && p.workers[i].pc == q.workers[i].pc
  }

  lemma KeepsFinishingEarned(p: Pod, q: Pod, es: seq<Event>, e: Event)
    requires FinishingEarned(p, es) && NoNewFinishing(p, q)
    ensures FinishingEarned(q, es + [e])
  {
    forall i | 0 <= i < |q.workers| && q.workers[i].pc.Finishing?
      ensures Succeeded(es + [e], |q.h.past|, q.workers[i].pc.work)
    {
      SucceededLater(es, e, |p.h.past|, p.workers[i].pc.work);
    }
  }

  lemma DispatchStartsNoFinishing(p: Pod, st: Status, kind: WorkType, o: UpdateOptions)
    ensures NoNewFinishing(p, Dispatch(p, st, kind, o))
  {
  }

  lemma UpdateStartsNoFinishing(p: Pod, st: Status, o: UpdateOptions)
    ensures NoNewFinishing(p, UpdateUnfinished(p, st, o))
  {
    var closed := p.(h := CloseRequested(p.h, o));
    DispatchStartsNoFinishing(closed, st, TerminatedPodWork, o.(kill := None));
    DispatchStartsNoFinishing(closed, st, SyncPodWork, o.(kill := None));
    var st2 := RegisterKill(st, o);
    DispatchStartsNoFinishing(p, st2, TerminatingPodWork, WithGrace(o, st2.gracePeriod));
  }

  lemma UnknownIsEmpty(p: Pod)
    requires Inv(p)
    ensures p.status.None? ==> p.h.generated == []
    ensures p.status.Some? && !p.status.value.finished ==> p.h.generated != []
  {
  }

  /** An update ends nothing: what it finds ended was ended before, or never generated any work. */
  lemma UpdateEndsNothing(p: Pod, o: UpdateOptions, cacheTerminal: bool)
    requires Inv(p)
    ensures var q := UpdatePod(p, o, cacheTerminal);
            q.status.Some? && q.h.generated != [] && (q.status.value.terminated || q.status.value.finished) ==>
              && p.status.Some? && p.h.generated != []
              && p.status.value.terminated == q.status.value.terminated
              && p.status.value.finished == q.status.value.finished
  {
    UnknownIsEmpty(p);
    if p.status.Some? {
      UpdateKeepsEnd(p, o, cacheTerminal);
    } else {
      var st := FirstStatus(o.source, cacheTerminal);
      BeginKeeps(st, o);
      UnfinishedKeepsEnd(p, BeginTermination(st, o), o);
    }
  }

  lemma UpdateEarns(p: Pod, o: UpdateOptions, cacheTerminal: bool, es: seq<Event>, e: Event)
    requires Inv(p) && FinishingEarned(p, es) && EndEarned(p, es)
    ensures var q := UpdatePod(p, o, cacheTerminal); FinishingEarned(q, es + [e]) && EndEarned(q, es + [e])
  {
    var q := UpdatePod(p, o, cacheTerminal);
    UpdateStartsNoFinishing(p, BeginTermination(StatusFor(p, o, cacheTerminal), o), o);
    KeepsFinishingEarned(p, q, es, e);
    UpdateEndsNothing(p, o, cacheTerminal);
    EndsLater(es, e, |p.h.past|);
  }

  lemma ReturnEarns(p: Pod, i: nat, ok: bool, es: seq<Event>, e: Event)
    requires p == Run(UNKNOWN, es) && e == Event.Work(i, Return(ok)) && FinishingEarned(p, es)
    ensures FinishingEarned(WorkerStep(p, i, Return(ok)), es + [e])
  {
    var q := WorkerStep(p, i, Return(ok));
    forall j | 0 <= j < |q.workers| && q.workers[j].pc.Finishing?
      ensures Succeeded(es + [e], |q.h.past|, q.workers[j].pc.work)
    {
      var x := q.workers[j].pc.work;
      if p.workers[j].pc == q.workers[j].pc {
        SucceededLater(es, e, |p.h.past|, x);
      } else {
        assert (es + [e])[..|es|] == es && (es + [e])[|es|] == e;
        assert SucceedsAt(es + [e], |es|, |p.h.past|, x);
      }
    }
  }

  lemma OtherActionsStartNoFinishing(p: Pod, i: nat, a: Action)
    requires !a.Return? && !a.Complete?
    ensures NoNewFinishing(p, WorkerStep(p, i, a))
  {
  }

  lemma OtherActionsEndNothing(p: Pod, i: nat, a: Action)
    requires !a.Complete?
    ensures var q := WorkerStep(p, i, a);
            && q.status.Some? == p.status.Some? && q.h.generated == p.h.generated && q.h.past == p.h.past
            && (p.status.Some? ==>
                  q.status.value.terminated == p.status.value.terminated
                  && q.status.value.finished == p.status.value.finished)
  {
  }

  lemma CompleteStartsNoFinishing(p: Pod, i: nat)
    ensures NoNewFinishing(p, WorkerStep(p, i, Complete))
  {
    if i < |p.workers| && p.workers[i].pc.Finishing? {
      CompleteKeepsStage(p, i);
      CompletePcs(p, i);
    }
  }

  lemma CompletePcs(p: Pod, i: nat)
    requires i < |p.workers| && p.workers[i].pc.Finishing?
    ensures var q := WorkerStep(p, i, Complete);
            && |q.workers| == |p.workers| && !q.workers[i].pc.Finishing?
            && forall j :: 0 <= j < |p.workers| && j != i ==> q.workers[j].pc == p.workers[j].pc
  {
  }

  /** Completing an item that succeeded ends the pod with good reason. */
  lemma CompleteEarns(p: Pod, i: nat, es: seq<Event>, e: Event)
    requires Inv(p) && FinishingEarned(p, es) && EndEarned(p, es)
    requires i < |p.workers| && p.workers[i].pc.Finishing?
    ensures EndEarned(WorkerStep(p, i, Complete), es + [e])
  {
    var q, x := WorkerStep(p, i, Complete), p.workers[i].pc.work;
    CompleteChannels(p, i);
    CompleteKeepsStage(p, i);
    CompleteEnds(p, i);
    assert Succeeded(es, |p.h.past|, x);
    EndsLater(es, e, |p.h.past|);
    SucceededLater(es, e, |p.h.past|, x);
  }

  /** What a completion ends, and by which item. */
  lemma CompleteEnds(p: Pod, i: nat)
    requires Inv(p) && i < |p.workers| && p.workers[i].pc.Finishing?
    ensures var q, x := WorkerStep(p, i, Complete), p.workers[i].pc.work;
            && p.status.Some? && p.h.generated != [] && !x.kind.SyncPodWork?
            && (x.kind.TerminatedPodWork? ==> p.status.value.terminated)
            && (q.status.Some? && q.status.value.finished ==>
                  x.kind.TerminatedPodWork? || x.options.source.RuntimeOnly?)
  {
    var x := p.workers[i].pc.work;
    BusyIsLive(p, i);
    CompleteChannels(p, i);
    if !x.kind.TerminatedPodWork? && !x.options.source.RuntimeOnly? {
      ContinuingDoesNotFinish(p, i);
    }
  }

  lemma ContinuingDoesNotFinish(p: Pod, i: nat)
    requires i < |p.workers| && p.workers[i].pc.Finishing? && p.status.Some? && !p.status.value.finished
    requires !p.workers[i].pc.work.kind.TerminatedPodWork? && !p.workers[i].pc.work.options.source.RuntimeOnly?
    ensures WorkerStep(p, i, Complete).status.Some? && !WorkerStep(p, i, Complete).status.value.finished
  {
  }

  lemma WorkEarns(p: Pod, i: nat, a: Action, es: seq<Event>, e: Event)
    requires p == Run(UNKNOWN, es) && e == Event.Work(i, a)
    requires Inv(p) && FinishingEarned(p, es) && EndEarned(p, es)
    ensures var q := WorkerStep(p, i, a); FinishingEarned(q, es + [e]) && EndEarned(q, es + [e])
  {
    var q := WorkerStep(p, i, a);
    EndsLater(es, e, |p.h.past|);
    if a.Return? {
      ReturnEarns(p, i, a.ok, es, e);
      OtherActionsEndNothing(p, i, a);
    } else if a.Complete? {
      CompleteStartsNoFinishing(p, i);
      KeepsFinishingEarned(p, q, es, e);
      if i < |p.workers| && p.workers[i].pc.Finishing? {
        CompleteEarns(p, i, es, e);
      }
    } else {
      OtherActionsStartNoFinishing(p, i, a);
      KeepsFinishingEarned(p, q, es, e);
      OtherActionsEndNothing(p, i, a);
    }
  }

  lemma PurgeEarns(p: Pod, known: bool, es: seq<Event>, e: Event)
    requires Inv(p) && FinishingEarned(p, es) && EndEarned(p, es)
    ensures var q := HousekeepPod(p, known); FinishingEarned(q, es + [e]) && EndEarned(q, es + [e])
  {
    var q := HousekeepPod(p, known);
    EndsLater(es, e, |p.h.past|);
    if q == p {
      KeepsFinishingEarned(p, p, es, e);
    }
  }

  lemma {:induction false} RunEarns(es: seq<Event>)
    ensures FinishingEarned(Run(UNKNOWN, es), es) && EndEarned(Run(UNKNOWN, es), es)
  {
    if es != [] {
      var fs, e := es[..|es| - 1], es[|es| - 1];
      var p := Run(UNKNOWN, fs);
      RunEarns(fs);
      RunInv(fs);
      assert fs + [e] == es;
      match e
      case Update(o, cacheTerminal) => UpdateEarns(p, o, cacheTerminal, fs, e);
      case Work(i, a) => WorkEarns(p, i, a, fs, e);
      case Housekeep(known) => PurgeEarns(p, known, fs, e);
    }
  }

  /** In every run: a pod for which work was generated is terminated only if, in this incarnation, a sync
      function called for a termination returned without error; and finished only if one called for a
      terminated pod, or for the termination of a pod known only to the runtime, did. */
  lemma EndsOnlyBySuccess(es: seq<Event>)
    ensures var p := Run(UNKNOWN, es);
            p.status.Some? && p.h.generated != [] ==>
              && (p.status.value.terminated ==> TerminatingSucceeded(es, |p.h.past|))
              && (p.status.value.finished ==> EndingSucceeded(es, |p.h.past|))
  {
    RunEarns(es);
  }

  /** So a run in which every sync function fails terminates nothing. */
  lemma FailuresEndNothing(es: seq<Event>)
    requires forall k :: 0 <= k < |es| && es[k].Work? ==> es[k].action != Return(true)
    ensures var p := Run(UNKNOWN, es);
            p.status.Some? && p.h.generated != [] ==> !p.status.value.terminated && !p.status.value.finished
  {
    EndsOnlyBySuccess(es);
    forall k: nat, n: nat, x: Work ensures !SucceedsAt(es, k, n, x) {}
  }

  /** And a pod whose termination succeeded is terminated at once: completing it is the worker's next step. */
  lemma SuccessTerminates(p: Pod, i: nat, x: Work)
    requires Inv(p) && i < |p.workers| && p.workers[i].pc == Running(x) && x.kind.TerminatingPodWork?
    ensures var q := WorkerStep(WorkerStep(p, i, Return(true)), i, Complete);
            q.status.Some? && q.status.value.terminated
    ensures WorkerStep(WorkerStep(p, i, Return(false)), i, Complete) == WorkerStep(p, i, Return(false))
  {
    BusyIsLive(p, i);
    var r := WorkerStep(p, i, Return(true));
    assert r.workers[i].pc == Finishing(x);
    WorkerPreserves(p, i, Return(true));
    CompleteChannels(r, i);
    if x.options.source.RuntimeOnly? {
      RuntimeCompletionTerminates(r, i);
    }
    assert WorkerStep(p, i, Return(false)).workers[i].pc == Requeueing;
  }

  lemma RuntimeCompletionTerminates(p: Pod, i: nat)
    requires i < |p.workers| && p.workers[i].pc.Finishing? && p.status.Some?
    requires p.workers[i].pc.work.kind.TerminatingPodWork? && p.workers[i].pc.work.options.source.RuntimeOnly?
    ensures WorkerStep(p, i, Complete).status.Some? && WorkerStep(p, i, Complete).status.value.terminated
  {
    CloseUpdatesShape(SetPc(p, i, Exited));
  }
}
