/** `convertToAPIContainerStatuses`: merging the previous status with what the runtime reports. */
module ContainerStatuses {
  import opened Wrappers
  import opened Order

  datatype Waiting = Waiting(reason: string, message: string)
  datatype Terminated = Terminated(exitCode: int, reason: string, message: string,
                                   startedAt: int, finishedAt: int, containerID: string)

  /** `ContainerState`: three optional members, of which normally one is set. */
  datatype State = State(waiting: Option<Waiting>, running: Option<int>, terminated: Option<Terminated>)

  datatype ContainerStatus = ContainerStatus(name: string, image: string, imageID: string, containerID: string,
                                             state: State, lastState: State, restartCount: int)

  datatype RuntimeState = Created | Running | Exited | Unknown
  datatype Report = Report(name: string, image: string, imageID: string, id: string,
                           state: RuntimeState, exitCode: int, reason: string, message: string,
                           createdAt: int, startedAt: int, finishedAt: int, restartCount: int)
  datatype Container = Container(name: string, image: string)
  datatype RestartPolicy = Always | OnFailure | Never

  /** Everything the conversion reads besides the containers themselves: the previous statuses, the
      runtime's reports, and the reasons recorded for containers that failed to start. */
  datatype Context = Context(previous: seq<ContainerStatus>, reports: seq<Report>, reasons: map<string, Waiting>,
                             hasInit: bool, isInit: bool, deleting: bool, policy: RestartPolicy)

  const NO_STATE := State(None, None, None)

  /** The unset time. */
  const NO_TIME := 0

  /** What is recorded of a container that ran and whose end nobody saw. */
  function Lost(message: string): Terminated {
    Terminated(137, "ContainerStatusUnknown", message, NO_TIME, NO_TIME, "")
  }

  const LOST_WHEN_TERMINATED := Lost("The container could not be located when the pod was terminated")
  const LOST_WHEN_DELETED :=
    Lost("The container could not be located when the pod was deleted.  The container used to be Running")

  function WaitingState(reason: string, message: string): State {
    State(Some(Waiting(reason, message)), None, None)
  }

  function DefaultReason(hasInit: bool): string {
    if hasInit then "PodInitializing" else "ContainerCreating"
  }

  /** `oldStatuses`: of several previous statuses with one name the last one counts. */
  function OldStatus(previous: seq<ContainerStatus>, name: string): (r: Option<ContainerStatus>)
    ensures r.Some? ==> r.value.name == name && r.value in previous
  {
    if previous == [] then None
    else if Last(previous).name == name then Some(Last(previous))
    else OldStatus(previous[..|previous| - 1], name)
  }

  lemma {:induction false} OldStatusIsLast(previous: seq<ContainerStatus>, name: string, i: nat)
    requires i < |previous| && previous[i].name == name
    requires forall j :: i < j < |previous| ==> previous[j].name != name
    ensures OldStatus(previous, name) == Some(previous[i])
  {
    if i < |previous| - 1 {
      OldStatusIsLast(previous[..|previous| - 1], name, i);
    }
  }

  /** `convertContainerStatus`. */
  function ConvertReport(r: Report, old_: Option<ContainerStatus>): ContainerStatus {
    var s := ContainerStatus(r.name, r.image, r.imageID, r.id, NO_STATE, NO_STATE, r.restartCount);
    var ended := Terminated(r.exitCode, r.reason, r.message, r.startedAt, r.finishedAt, r.id);
    match r.state
    case Running => s.(state := State(None, Some(r.startedAt), None))
    case Created => s.(state := State(None, None, Some(ended)))
    case Exited => s.(state := State(None, None, Some(ended)))
    case Unknown =>
      if old_.Some? && old_.value.state.running.Some?
      then s.(state := State(None, None, Some(LOST_WHEN_TERMINATED)),
              restartCount := old_.value.restartCount + 1)
      else s.(state := State(Some(Waiting("", "")), None, None))
  }

  /** First pass: a waiting status, or the previous one if that was terminated. */
  function DefaultStatus(ctx: Context, c: Container): (s: ContainerStatus)
    ensures s.name == c.name
  {
    var old_ := OldStatus(ctx.previous, c.name);
    var s := ContainerStatus(c.name, c.image, "", "", WaitingState(DefaultReason(ctx.hasInit), ""), NO_STATE, 0);
    if old_.None? then s
    else if old_.value.state.terminated.Some? then old_.value
    else s.(restartCount := old_.value.restartCount, lastState := old_.value.lastState)
  }

  /** Of several containers with one name the last one gives the default status. */
  function LastNamed(cs: seq<Container>, name: string): (r: Option<Container>)
    ensures r.Some? ==> r.value.name == name
  {
    if cs == [] then None
    else if Last(cs).name == name then Some(Last(cs))
    else LastNamed(cs[..|cs| - 1], name)
  }

  predicate Reported(reports: seq<Report>, name: string) {
    exists i :: 0 <= i < |reports| && reports[i].name == name
  }

  /** Second pass: a container that was running and is no longer reported must have terminated. */
  function InferTermination(ctx: Context, name: string, s: ContainerStatus): ContainerStatus {
    var old_ := OldStatus(ctx.previous, name);
    if Reported(ctx.reports, name) || old_.None? then s
    else if old_.value.state.terminated.Some? || old_.value.state.running.None? then s
    else if !(s.state.waiting.Some? && s.state.waiting.value.reason == DefaultReason(ctx.hasInit)) then s
    else if s.lastState.terminated.Some? then s
    else s.(lastState := s.lastState.(terminated := Some(LOST_WHEN_DELETED)),
            restartCount := if ctx.deleting then s.restartCount else s.restartCount + 1)
  }

  function Seen(rs: seq<Report>, name: string): nat {
    if rs == [] then 0 else Seen(rs[..|rs| - 1], name) + (if Last(rs).name == name then 1 else 0)
  }

  function ApplyReport(ctx: Context, s: ContainerStatus, r: Report, seen: nat): ContainerStatus {
    var converted := ConvertReport(r, OldStatus(ctx.previous, r.name));
    if seen == 0 then converted else if seen == 1 then s.(lastState := converted.state) else s
  }

  /** Third pass: the newest report gives the state, the second newest the last termination state. */
  function ApplyReports(ctx: Context, name: string, s: ContainerStatus, rs: seq<Report>): ContainerStatus {
    if rs == [] then s
    else
      var before, r := ApplyReports(ctx, name, s, rs[..|rs| - 1]), Last(rs);
      if r.name != name then before else ApplyReport(ctx, before, r, Seen(rs[..|rs| - 1], name))
  }

  /** `FindContainerStatusByName`. */
  function FindReport(rs: seq<Report>, name: string): (r: Option<Report>)
    ensures r.Some? <==> Reported(rs, name)
    ensures r.Some? ==> r.value.name == name && r.value in rs
  {
    if rs == [] then None
    else if rs[0].name == name then Some(rs[0])
    else
      var r := FindReport(rs[1..], name);
      assert forall i :: 0 < i < |rs| ==> rs[i] == rs[1..][i - 1];
      assert forall i :: 0 <= i < |rs[1..]| ==> rs[1..][i] == rs[i + 1];
      r
  }

  /** `ShouldContainerBeRestarted`. */
  predicate ShouldRestart(ctx: Context, name: string) {
    if ctx.deleting then false
    else match FindReport(ctx.reports, name)
         case None => true
         case Some(r) =>
           if r.state.Running? then false
           else if r.state.Unknown? || r.state.Created? then true
           else if ctx.policy.Never? then false
           else if ctx.policy.OnFailure? && r.exitCode == 0 then false
           else true
  }

  /** An init container that exited with code 0 is not restarted. */
  predicate InitDone(ctx: Context, name: string) {
    ctx.isInit && var r := FindReport(ctx.reports, name); r.Some? && r.value.state.Exited? && r.value.exitCode == 0
  }

  /** Fourth pass: a container to be restarted whose start failed is waiting, with the reason. */
  function ApplyReason(ctx: Context, name: string, s: ContainerStatus): ContainerStatus {
    if InitDone(ctx, name) || !ShouldRestart(ctx, name) || name !in ctx.reasons then s
    else s.(lastState := if s.state.terminated.Some? then s.state else s.lastState,
            state := State(Some(ctx.reasons[name]), None, None))
  }

  /** The status of one container after all passes, given the order in which reports are visited. */
  function FinalStatus(ctx: Context, sorted: seq<Report>, name: string, s: ContainerStatus): ContainerStatus {
    ApplyReason(ctx, name, ApplyReports(ctx, name, InferTermination(ctx, name, s), sorted))
  }

  predicate NewerFirst(a: Report, b: Report) {
    a.createdAt > b.createdAt
  }

  /** `sorted` is an order in which the sort can leave the reports. */
  ghost predicate NewestFirst(reports: seq<Report>, sorted: seq<Report>) {
    Sorted(sorted, NewerFirst) && multiset(sorted) == multiset(reports)
  }

  // ------------------------------------------------------------------ the passes

  method FindOld(previous: seq<ContainerStatus>) returns (m: map<string, ContainerStatus>)
    ensures forall n :: n in m <==> OldStatus(previous, n).Some?
    ensures forall n :: n in m ==> m[n] == OldStatus(previous, n).value
  {
    m := map[];
    var i := 0;
    while i < |previous|
      invariant 0 <= i <= |previous|
      invariant forall n :: n in m <==> OldStatus(previous[..i], n).Some?
      invariant forall n :: n in m ==> m[n] == OldStatus(previous[..i], n).value
    {
      m := m[previous[i].name := previous[i]];
      i := i + 1;
      assert previous[..i][..i - 1] == previous[..i - 1];
    }
    assert previous[..i] == previous;
  }

  method SetDefaults(ctx: Context, cs: seq<Container>) returns (m: map<string, ContainerStatus>)
    ensures forall n :: n in m <==> LastNamed(cs, n).Some?
    ensures forall n :: n in m ==> m[n] == DefaultStatus(ctx, LastNamed(cs, n).value)
  {
    m := map[];
    var old_ := FindOld(ctx.previous);
    var i := 0;
    while i < |cs|
      invariant 0 <= i <= |cs|
      invariant forall n :: n in m <==> LastNamed(cs[..i], n).Some?
      invariant forall n :: n in m ==> m[n] == DefaultStatus(ctx, LastNamed(cs[..i], n).value)
    {
      var s := NewDefault(ctx, cs[i], old_);
      m := m[cs[i].name := s];
      i := i + 1;
      assert cs[..i][..i - 1] == cs[..i - 1];
    }
    assert cs[..i] == cs;
  }

  method NewDefault(ctx: Context, c: Container, old_: map<string, ContainerStatus>) returns (s: ContainerStatus)
    requires c.name in old_ <==> OldStatus(ctx.previous, c.name).Some?
    requires c.name in old_ ==> old_[c.name] == OldStatus(ctx.previous, c.name).value
    ensures s == DefaultStatus(ctx, c)
  {
    s := ContainerStatus(c.name, c.image, "", "", WaitingState(DefaultReason(ctx.hasInit), ""), NO_STATE, 0);
    if c.name in old_ {
      if old_[c.name].state.terminated.Some? {
        s := old_[c.name];
      } else {
        s := s.(restartCount := old_[c.name].restartCount, lastState := old_[c.name].lastState);
      }
    }
  }

  lemma {:induction false} LastNamedIsNamed(cs: seq<Container>, n: string)
    ensures LastNamed(cs, n).Some? <==> NamedIn(cs, n)
  {
    if cs != [] {
      LastNamedIsNamed(cs[..|cs| - 1], n);
      NamedSnoc(cs, |cs| - 1);
      assert cs[..|cs|] == cs;
    }
  }

  ghost predicate NamedIn(cs: seq<Container>, n: string) {
    exists i :: 0 <= i < |cs| && cs[i].name == n
  }

  lemma NamedSnoc(cs: seq<Container>, i: nat)
    requires i < |cs|
    ensures forall n :: NamedIn(cs[..i + 1], n) <==> NamedIn(cs[..i], n) || n == cs[i].name
  {
    forall n ensures NamedIn(cs[..i + 1], n) <==> NamedIn(cs[..i], n) || n == cs[i].name {
      assert cs[..i + 1][i] == cs[i];
      if k :| 0 <= k < i && cs[..i][k].name == n { assert cs[..i + 1][k].name == n; }
      if NamedIn(cs[..i + 1], n) {
        var longer := cs[..i + 1];
        var k :| 0 <= k < |longer| && longer[k].name == n;
        assert k < i ==> cs[..i][k].name == n;
      }
    }
  }

  method InferTerminations(ctx: Context, cs: seq<Container>, before: map<string, ContainerStatus>)
    returns (m: map<string, ContainerStatus>)
    requires forall n :: n in before <==> NamedIn(cs, n)
    ensures m.Keys == before.Keys
    ensures forall n :: n in m ==> m[n] == InferTermination(ctx, n, before[n])
  {
    m := before;
    var i := 0;
    while i < |cs|
      invariant 0 <= i <= |cs| && m.Keys == before.Keys
      invariant forall n :: n in m ==>
                  m[n] == if NamedIn(cs[..i], n) then InferTermination(ctx, n, before[n]) else before[n]
    {
      var name := cs[i].name;
      assert NamedIn(cs, name);
      NamedSnoc(cs, i);
      m := m[name := InferTermination(ctx, name, m[name])];
      i := i + 1;
    }
    assert cs[..i] == cs;
  }

  lemma ReportsStep(ctx: Context, n: string, s: ContainerStatus, rs: seq<Report>, i: nat)
    requires i < |rs|
    ensures Seen(rs[..i + 1], n) == Seen(rs[..i], n) + (if rs[i].name == n then 1 else 0)
    ensures ApplyReports(ctx, n, s, rs[..i + 1]) ==
            var before := ApplyReports(ctx, n, s, rs[..i]);
            if rs[i].name != n then before else ApplyReport(ctx, before, rs[i], Seen(rs[..i], n))
  {
    assert rs[..i + 1][..i] == rs[..i];
  }

  function AtMostTwo(n: nat): nat { if n < 2 then n else 2 }

  ghost predicate AppliedSo(ctx: Context, before: map<string, ContainerStatus>, m: map<string, ContainerStatus>,
                            rs: seq<Report>) {
    m.Keys == before.Keys && forall n :: n in m ==> m[n] == ApplyReports(ctx, n, before[n], rs)
  }

  ghost predicate SeenSo(keys: set<string>, seen: map<string, nat>, rs: seq<Report>) {
    seen.Keys == keys && forall n :: n in seen ==> seen[n] == AtMostTwo(Seen(rs, n))
  }

  /** A report of an unknown container, or the third one of a container, changes nothing. */
  lemma ReportSkipped(ctx: Context, before: map<string, ContainerStatus>, m: map<string, ContainerStatus>,
                      seen: map<string, nat>, rs: seq<Report>, i: nat)
    requires i < |rs| && AppliedSo(ctx, before, m, rs[..i]) && SeenSo(before.Keys, seen, rs[..i])
    requires rs[i].name in seen ==> seen[rs[i].name] >= 2
    ensures AppliedSo(ctx, before, m, rs[..i + 1]) && SeenSo(before.Keys, seen, rs[..i + 1])
  {
    forall n | n in m
      ensures m[n] == ApplyReports(ctx, n, before[n], rs[..i + 1]) && seen[n] == AtMostTwo(Seen(rs[..i + 1], n))
    {
      ReportsStep(ctx, n, before[n], rs, i);
    }
  }

  lemma ReportCounted(ctx: Context, before: map<string, ContainerStatus>, m: map<string, ContainerStatus>,
                      seen: map<string, nat>, rs: seq<Report>, i: nat)
    requires i < |rs| && AppliedSo(ctx, before, m, rs[..i]) && SeenSo(before.Keys, seen, rs[..i])
    requires rs[i].name in m && seen[rs[i].name] < 2
    ensures var name := rs[i].name;
            && AppliedSo(ctx, before, m[name := ApplyReport(ctx, m[name], rs[i], seen[name])], rs[..i + 1])
            && SeenSo(before.Keys, seen[name := seen[name] + 1], rs[..i + 1])
  {
    var name := rs[i].name;
    var m', seen' := m[name := ApplyReport(ctx, m[name], rs[i], seen[name])], seen[name := seen[name] + 1];
    forall n | n in m'
      ensures m'[n] == ApplyReports(ctx, n, before[n], rs[..i + 1]) && seen'[n] == AtMostTwo(Seen(rs[..i + 1], n))
    {
      ReportsStep(ctx, n, before[n], rs, i);
    }
  }

  /** One report: nothing for an unknown container or a third report, else the state or the last state. */
  method ApplyNext(ctx: Context, ghost before: map<string, ContainerStatus>, m: map<string, ContainerStatus>,
                   seen: map<string, nat>, rs: seq<Report>, i: nat)
    returns (m': map<string, ContainerStatus>, seen': map<string, nat>)
    requires i < |rs| && AppliedSo(ctx, before, m, rs[..i]) && SeenSo(before.Keys, seen, rs[..i])
    ensures AppliedSo(ctx, before, m', rs[..i + 1]) && SeenSo(before.Keys, seen', rs[..i + 1])
  {
    var r := rs[i];
    if r.name in m && seen[r.name] < 2 {
      ReportCounted(ctx, before, m, seen, rs, i);
      m' := m[r.name := ApplyReport(ctx, m[r.name], r, seen[r.name])];
      seen' := seen[r.name := seen[r.name] + 1];
    } else {
      ReportSkipped(ctx, before, m, seen, rs, i);
      m', seen' := m, seen;
    }
  }

  /** Applies the reports in the given order, at most two for each container. */
  method ApplyInOrder(ctx: Context, before: map<string, ContainerStatus>, rs: seq<Report>)
    returns (m: map<string, ContainerStatus>)
    ensures m.Keys == before.Keys
    ensures forall n :: n in m ==> m[n] == ApplyReports(ctx, n, before[n], rs)
  {
    m := before;
    var seen: map<string, nat> := map n | n in before :: 0;
    var i := 0;
    while i < |rs|
      invariant 0 <= i <= |rs|
      invariant AppliedSo(ctx, before, m, rs[..i]) && SeenSo(before.Keys, seen, rs[..i])
    {
      m, seen := ApplyNext(ctx, before, m, seen, rs, i);
      i := i + 1;
    }
    assert rs[..i] == rs;
  }

  /** Sorts a copy of the reports, newest first, and applies them in that order. */
  method ApplySortedReports(ctx: Context, before: map<string, ContainerStatus>)
    returns (m: map<string, ContainerStatus>, ghost sorted: seq<Report>)
    ensures NewestFirst(ctx.reports, sorted)
    ensures m.Keys == before.Keys
    ensures forall n :: n in m ==> m[n] == ApplyReports(ctx, n, before[n], sorted)
  {
    assert WeakOrder(NewerFirst);
    var copy := Sort(ctx.reports, NewerFirst);
    sorted := copy;
    m := ApplyInOrder(ctx, before, copy);
  }

  method ApplyReasons(ctx: Context, cs: seq<Container>, before: map<string, ContainerStatus>)
    returns (m: map<string, ContainerStatus>)
    requires forall n :: n in before <==> NamedIn(cs, n)
    ensures m.Keys == before.Keys
    ensures forall n :: n in m ==> m[n] == ApplyReason(ctx, n, before[n])
  {
    m := before;
    var i := 0;
    while i < |cs|
      invariant 0 <= i <= |cs| && m.Keys == before.Keys
      invariant forall n :: n in m ==> m[n] == if NamedIn(cs[..i], n) then ApplyReason(ctx, n, before[n]) else before[n]
    {
      var name := cs[i].name;
      assert NamedIn(cs, name);
      NamedSnoc(cs, i);
      m := m[name := ApplyReason(ctx, name, m[name])];
      i := i + 1;
    }
    assert cs[..i] == cs;
  }

  /** All passes, one after the other, over one map that is changed in place. */
  method ConvertStatuses(ctx: Context, cs: seq<Container>)
    returns (m: map<string, ContainerStatus>, ghost sorted: seq<Report>)
    ensures NewestFirst(ctx.reports, sorted)
    ensures forall n :: n in m <==> NamedIn(cs, n)
    ensures forall n :: n in m ==>
              LastNamed(cs, n).Some? && m[n] == FinalStatus(ctx, sorted, n, DefaultStatus(ctx, LastNamed(cs, n).value))
  {
    m := SetDefaults(ctx, cs);
    forall n ensures n in m <==> NamedIn(cs, n) { LastNamedIsNamed(cs, n); }
    m := InferTerminations(ctx, cs, m);
    m, sorted := ApplySortedReports(ctx, m);
    m := ApplyReasons(ctx, cs, m);
  }
}
