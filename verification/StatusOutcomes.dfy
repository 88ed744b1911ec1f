/** What a converted status shows, field by field, in terms of the reports and the previous status alone. */
module StatusOutcomes {
  import opened Wrappers
  import opened ContainerStatuses
  import opened PodPhase

  // -------------------------------------------------------------- start failures

  /** A container is restarted exactly when the pod is not being deleted and the report found first says it
      never started, or is missing, or says it exited and the policy asks for a restart. */
  lemma RestartsExactly(ctx: Context, n: string)
    ensures ShouldRestart(ctx, n) <==>
            && !ctx.deleting
            && var r := FindReport(ctx.reports, n);
               || r.None? || r.value.state.Unknown? || r.value.state.Created?
               || (r.value.state.Exited? && (ctx.policy.Always? || (ctx.policy.OnFailure? && r.value.exitCode != 0)))
  {
  }

  /** A start failure is on record and the container is to be started again: an init container that exited
      with code 0 is not. */
  predicate StartFailed(ctx: Context, n: string) {
    && n in ctx.reasons && ShouldRestart(ctx, n)
    && !(ctx.isInit && var r := FindReport(ctx.reports, n);
         r.Some? && r.value.state.Exited? && r.value.exitCode == 0)
  }

  /** The status of the container before start failures are applied. */
  function BeforeFailures(ctx: Context, sorted: seq<Report>, c: Container): ContainerStatus {
    ApplyReports(ctx, c.name, InferTermination(ctx, c.name, DefaultStatus(ctx, c)), sorted)
  }

  /** A start failure that counts is what the status shows, with the end of the container, if it had ended, as
      its last state; otherwise the status is left as it is. */
  lemma StartFailureShows(ctx: Context, sorted: seq<Report>, c: Container)
    ensures var s, f := FinalStatus(ctx, sorted, c.name, DefaultStatus(ctx, c)), BeforeFailures(ctx, sorted, c);
            if StartFailed(ctx, c.name)
            then s == f.(state := State(Some(ctx.reasons[c.name]), None, None),
                         lastState := if f.state.terminated.Some? then f.state else f.lastState)
            else s == f
  {
  }

  // -------------------------------------------------------------------- reports

  /** What a report says of the end of its container. */
  predicate SaysEnded(t: Terminated, r: Report) {
    && t.exitCode == r.exitCode && t.reason == r.reason && t.message == r.message
    && t.startedAt == r.startedAt && t.finishedAt == r.finishedAt && t.containerID == r.id
  }

  predicate Over(r: Report) { r.state.Exited? || r.state.Created? }

  /** The status names the container, image and restarts of a report. */
  predicate Names(s: ContainerStatus, r: Report) {
    s.name == r.name && s.image == r.image && s.imageID == r.imageID && s.containerID == r.id
  }

  /** If no start failure counts, a container whose newest report says it ended is shown as terminated, and
      nothing else, with that report's exit code, reason, message, times and ID and its restart count. */
  lemma EndedContainerShows(ctx: Context, sorted: seq<Report>, c: Container, r: Report)
    requires FindReport(sorted, c.name) == Some(r) && Over(r) && !StartFailed(ctx, c.name)
    ensures var s := FinalStatus(ctx, sorted, c.name, DefaultStatus(ctx, c));
            && Names(s, r) && s.restartCount == r.restartCount
            && s.state.waiting.None? && s.state.running.None? && s.state.terminated.Some?
            && SaysEnded(s.state.terminated.value, r)
  {
    StartFailureShows(ctx, sorted, c);
    NewestReportsDecide(ctx, c.name, InferTermination(ctx, c.name, DefaultStatus(ctx, c)), sorted);
  }

  /** One whose newest report says it runs is shown as running since the time it says. */
  lemma RunningContainerShows(ctx: Context, sorted: seq<Report>, c: Container, r: Report)
    requires FindReport(sorted, c.name) == Some(r) && r.state.Running? && !StartFailed(ctx, c.name)
    ensures var s := FinalStatus(ctx, sorted, c.name, DefaultStatus(ctx, c));
            && Names(s, r) && s.restartCount == r.restartCount
            && s.state == State(None, Some(r.startedAt), None)
  {
    StartFailureShows(ctx, sorted, c);
    NewestReportsDecide(ctx, c.name, InferTermination(ctx, c.name, DefaultStatus(ctx, c)), sorted);
  }

  /** One whose newest report says unknown is shown as terminated with code 137 and one more restart if it was
      shown running, and else as waiting. */
  lemma UnknownContainerShows(ctx: Context, sorted: seq<Report>, c: Container, r: Report)
    requires FindReport(sorted, c.name) == Some(r) && r.state.Unknown? && !StartFailed(ctx, c.name)
    ensures var s, o := FinalStatus(ctx, sorted, c.name, DefaultStatus(ctx, c)), OldStatus(ctx.previous, c.name);
            && Names(s, r) && s.state.running.None?
            && if o.Some? && o.value.state.running.Some?
               then s.restartCount == o.value.restartCount + 1 && s.state.waiting.None? && s.state.terminated.Some?
                    && s.state.terminated.value.exitCode == 137
               else s.restartCount == r.restartCount && s.state.waiting.Some? && s.state.terminated.None?
  {
    StartFailureShows(ctx, sorted, c);
    NewestReportsDecide(ctx, c.name, InferTermination(ctx, c.name, DefaultStatus(ctx, c)), sorted);
  }

  /** The last state is what the report before the newest says: how it ended, if it did. */
  lemma LastStateShows(ctx: Context, sorted: seq<Report>, c: Container)
    requires FindReport(sorted, c.name).Some? && !StartFailed(ctx, c.name)
    ensures var s, r := FinalStatus(ctx, sorted, c.name, DefaultStatus(ctx, c)), SecondReport(sorted, c.name);
            && (r.None? ==> s.lastState == NO_STATE)
            && (r.Some? && Over(r.value) ==>
                  s.lastState.terminated.Some? && SaysEnded(s.lastState.terminated.value, r.value))
            && (r.Some? && r.value.state.Running? ==> s.lastState == State(None, Some(r.value.startedAt), None))
  {
    StartFailureShows(ctx, sorted, c);
    NewestReportsDecide(ctx, c.name, InferTermination(ctx, c.name, DefaultStatus(ctx, c)), sorted);
  }

  /** A container that no report mentions keeps a terminated status as it is; else it waits to be created, with
      its restarts and last state, and as a new one if it had no status. */
  lemma UnreportedContainerShows(ctx: Context, sorted: seq<Report>, c: Container)
    requires NewestFirst(ctx.reports, sorted) && FindReport(sorted, c.name).None? && !StartFailed(ctx, c.name)
    ensures var s, o := FinalStatus(ctx, sorted, c.name, DefaultStatus(ctx, c)), OldStatus(ctx.previous, c.name);
            if o.Some? && o.value.state.terminated.Some? then s == o.value
            else
              && s.name == c.name && s.image == c.image
              && s.state == State(Some(Waiting(if ctx.hasInit then "PodInitializing" else "ContainerCreating", "")),
                                  None, None)
              && (o.None? ==> s.restartCount == 0 && s.lastState == NO_STATE)
              && (o.Some? && o.value.state.running.None? ==>
                    s.restartCount == o.value.restartCount && s.lastState == o.value.lastState)
  {
    StartFailureShows(ctx, sorted, c);
    NewestReportsDecide(ctx, c.name, InferTermination(ctx, c.name, DefaultStatus(ctx, c)), sorted);
    SameReported(ctx.reports, sorted, c.name);
  }

  // ---------------------------------------------------------- and so for the phase

  ghost predicate AllExited(ctx: Context, sorted: seq<Report>, cs: seq<Container>) {
    forall i :: 0 <= i < |cs| ==>
      var r := FindReport(sorted, cs[i].name);
      r.Some? && r.value.state.Exited? && !StartFailed(ctx, cs[i].name)
  }

  ghost predicate AllExitedWithZero(sorted: seq<Report>, cs: seq<Container>) {
    forall i :: 0 <= i < |cs| ==>
      var r := FindReport(sorted, cs[i].name);
      r.Some? && r.value.exitCode == 0
  }

  /** The phase of a pod whose app containers all exited: Running if they are always restarted, Succeeded if all
      exit codes are 0, and otherwise Failed if nothing is restarted and Running if it is. */
  ghost function ExitPhase(spec: PodSpec, sorted: seq<Report>): Phase {
    if spec.policy.Always? then PodRunning
    else if AllExitedWithZero(sorted, spec.containers) then PodSucceeded
    else if spec.policy.Never? then PodFailed
    else PodRunning
  }

  lemma ExitCodesDecide(ctx: Context, sorted: seq<Report>, spec: PodSpec, out: seq<ContainerStatus>,
                        init: seq<ContainerStatus>)
    requires spec.containers != [] && spec.initContainers == []
    requires Converted(ctx, sorted, spec.containers, out) && AllExited(ctx, sorted, spec.containers)
    ensures PhaseOf(spec, out + init) == ExitPhase(spec, sorted)
  {
    var info := out + init;
    forall i | 0 <= i < |spec.containers|
      ensures var s, r := GetStatus(info, spec.containers[i].name), FindReport(sorted, spec.containers[i].name);
              && Started(s) && (Succeeded(s) <==> r.Some? && r.value.exitCode == 0)
              && (Stopped(s) <==> !Succeeded(s))
    {
      var n := spec.containers[i].name;
      EndedContainerShows(ctx, sorted, LastNamed(spec.containers, n).value, FindReport(sorted, n).value);
      GetStatusAppends(out, init, n);
    }
    ByExitCodes(sorted, spec, info);
  }

  lemma ByExitCodes(sorted: seq<Report>, spec: PodSpec, info: seq<ContainerStatus>)
    requires spec.containers != [] && spec.initContainers == []
    requires forall i :: 0 <= i < |spec.containers| ==>
               var s, r := GetStatus(info, spec.containers[i].name), FindReport(sorted, spec.containers[i].name);
               && Started(s) && (Succeeded(s) <==> r.Some? && r.value.exitCode == 0)
               && (Stopped(s) <==> !Succeeded(s))
    ensures PhaseOf(spec, info) == ExitPhase(spec, sorted)
  {
    SucceedsExactly(spec, info);
    FailsExactly(spec, info);
    PendsExactly(spec, info);
    assert !SomeInitFailed(spec, info) && AllInitEnded(spec, info);
    assert PhaseOf(spec, info) in {PodPending, PodRunning, PodSucceeded, PodFailed};
    if !AllExitedWithZero(sorted, spec.containers) {
      var i :| 0 <= i < |spec.containers| && !(var r := FindReport(sorted, spec.containers[i].name);
                                              r.Some? && r.value.exitCode == 0);
      assert Stopped(GetStatus(info, spec.containers[i].name));
    }
  }
}
