/** The pod phase: `getPhase`, the statuses it reads, and the three-way merge of phases. */
module PodPhase {
  import opened Wrappers
  import opened Order
  import opened ContainerStatuses

  datatype PodSpec = PodSpec(initContainers: seq<Container>, containers: seq<Container>, policy: RestartPolicy)

  /** `PodPhase`; `NoPhase` is the empty string of a pod without a status. */
  datatype Phase = NoPhase | PodPending | PodRunning | PodSucceeded | PodFailed | PodUnknown

  predicate Terminal(p: Phase) { p.PodSucceeded? || p.PodFailed? }

  // ------------------------------------------------------------------- getPhase

  /** `GetContainerStatus`: the first status with the name. */
  function GetStatus(info: seq<ContainerStatus>, name: string): (r: Option<ContainerStatus>)
    ensures r.Some? ==> r.value.name == name && r.value in info
  {
    if info == [] then None else if info[0].name == name then Some(info[0]) else GetStatus(info[1..], name)
  }

  datatype InitClass = InitPending | InitFailed | InitFinished

  function InitClassOf(s: Option<ContainerStatus>): InitClass {
    if s.None? || s.value.state.running.Some? then InitPending
    else if s.value.state.terminated.Some?
      then (if s.value.state.terminated.value.exitCode != 0 then InitFailed else InitFinished)
    else if s.value.state.waiting.Some? && s.value.lastState.terminated.Some?
      then (if s.value.lastState.terminated.value.exitCode != 0 then InitFailed else InitFinished)
    else InitPending
  }

  datatype AppClass = AppUnknown | AppWaiting | AppRunning | AppSucceeded | AppStopped

  function AppClassOf(s: Option<ContainerStatus>): AppClass {
    if s.None? then AppUnknown
    else if s.value.state.running.Some? then AppRunning
    else if s.value.state.terminated.Some?
      then (if s.value.state.terminated.value.exitCode == 0 then AppSucceeded else AppStopped)
    else if s.value.state.waiting.Some? then (if s.value.lastState.terminated.Some? then AppStopped else AppWaiting)
    else AppUnknown
  }

  predicate SomeInit(cs: seq<Container>, info: seq<ContainerStatus>, k: InitClass) {
    exists i :: 0 <= i < |cs| && InitClassOf(GetStatus(info, cs[i].name)) == k
  }

  predicate IsApp(c: Container, info: seq<ContainerStatus>, k: AppClass) {
    AppClassOf(GetStatus(info, c.name)) == k
  }

  predicate SomeApp(cs: seq<Container>, info: seq<ContainerStatus>, k: AppClass) {
    exists i :: 0 <= i < |cs| && IsApp(cs[i], info, k)
  }

  /** The phase in terms of what some or all containers are doing. */
  function PhaseOf(spec: PodSpec, info: seq<ContainerStatus>): Phase {
    if spec.policy.Never? && SomeInit(spec.initContainers, info, InitFailed) then PodFailed
    else if SomeInit(spec.initContainers, info, InitPending) then PodPending
    else if SomeApp(spec.containers, info, AppWaiting) || SomeApp(spec.containers, info, AppUnknown) then PodPending
    else if spec.containers == [] then PodPending
    else if SomeApp(spec.containers, info, AppRunning) || spec.policy.Always? then PodRunning
    else if !SomeApp(spec.containers, info, AppStopped) then PodSucceeded
    else if spec.policy.Never? then PodFailed
    else PodRunning
  }

  method CountInit(cs: seq<Container>, info: seq<ContainerStatus>) returns (pending: nat, failed: nat)
    ensures pending > 0 <==> SomeInit(cs, info, InitPending)
    ensures failed > 0 <==> SomeInit(cs, info, InitFailed)
  {
    pending, failed := 0, 0;
    var i := 0;
    while i < |cs|
      invariant 0 <= i <= |cs|
      invariant pending > 0 <==> exists j :: 0 <= j < i && InitClassOf(GetStatus(info, cs[j].name)) == InitPending
      invariant failed > 0 <==> exists j :: 0 <= j < i && InitClassOf(GetStatus(info, cs[j].name)) == InitFailed
    {
      match InitClassOf(GetStatus(info, cs[i].name)) {
        case InitPending => pending := pending + 1;
        case InitFailed => failed := failed + 1;
        case InitFinished =>
      }
      i := i + 1;
    }
  }

  lemma SomeAppSnoc(cs: seq<Container>, i: nat, info: seq<ContainerStatus>, k: AppClass)
    requires i < |cs|
    ensures SomeApp(cs[..i + 1], info, k) <==> SomeApp(cs[..i], info, k) || IsApp(cs[i], info, k)
  {
    var longer, shorter := cs[..i + 1], cs[..i];
    assert longer[i] == cs[i];
    if SomeApp(longer, info, k) {
      var j :| 0 <= j < |longer| && IsApp(longer[j], info, k);
      assert j < i ==> shorter[j] == longer[j];
    }
    if SomeApp(shorter, info, k) {
      var j :| 0 <= j < |shorter| && IsApp(shorter[j], info, k);
      assert longer[j] == shorter[j];
    }
  }

  method CountApp(cs: seq<Container>, info: seq<ContainerStatus>)
    returns (unknown: nat, running: nat, waiting: nat, stopped: nat, succeeded: nat)
    ensures unknown > 0 <==> SomeApp(cs, info, AppUnknown)
    ensures running > 0 <==> SomeApp(cs, info, AppRunning)
    ensures waiting > 0 <==> SomeApp(cs, info, AppWaiting)
    ensures succeeded <= stopped && (succeeded < stopped <==> SomeApp(cs, info, AppStopped))
    ensures unknown + running + waiting + stopped == |cs|
  {
    unknown, running, waiting, stopped, succeeded := 0, 0, 0, 0, 0;
    var i := 0;
    while i < |cs|
      invariant 0 <= i <= |cs| && unknown + running + waiting + stopped == i && succeeded <= stopped
      invariant unknown > 0 <==> SomeApp(cs[..i], info, AppUnknown)
      invariant running > 0 <==> SomeApp(cs[..i], info, AppRunning)
      invariant waiting > 0 <==> SomeApp(cs[..i], info, AppWaiting)
      invariant succeeded < stopped <==> SomeApp(cs[..i], info, AppStopped)
    {
      SomeAppSnoc(cs, i, info, AppUnknown);
      SomeAppSnoc(cs, i, info, AppRunning);
      SomeAppSnoc(cs, i, info, AppWaiting);
      SomeAppSnoc(cs, i, info, AppStopped);
      match AppClassOf(GetStatus(info, cs[i].name)) {
        case AppUnknown => unknown := unknown + 1;
        case AppRunning => running := running + 1;
        case AppWaiting => waiting := waiting + 1;
        case AppSucceeded => stopped, succeeded := stopped + 1, succeeded + 1;
        case AppStopped => stopped := stopped + 1;
      }
      i := i + 1;
    }
    assert cs[..i] == cs;
  }

  /** `getPhase`, from counters. */
  method GetPhase(spec: PodSpec, info: seq<ContainerStatus>) returns (phase: Phase)
    ensures phase == PhaseOf(spec, info)
  {
    var pendingInitialization, failedInitialization := CountInit(spec.initContainers, info);
    var unknown, running, waiting, stopped, succeeded := CountApp(spec.containers, info);
    if failedInitialization > 0 && spec.policy.Never? {
      return PodFailed;
    }
    if pendingInitialization > 0 || waiting > 0 {
      return PodPending;
    }
    if running > 0 && unknown == 0 {
      return PodRunning;
    }
    if running == 0 && stopped > 0 && unknown == 0 {
      if spec.policy.Always? {
        return PodRunning;
      }
      if stopped == succeeded {
        return PodSucceeded;
      }
      if spec.policy.Never? {
        return PodFailed;
      }
      return PodRunning;
    }
    return PodPending;
  }

  /** Exited with code 0. */
  predicate Succeeded(s: Option<ContainerStatus>) {
    s.Some? && s.value.state.running.None? && s.value.state.terminated.Some?
        && s.value.state.terminated.value.exitCode == 0
  }

  /** Exited with another code, or waiting to be started again after a termination. */
  predicate Stopped(s: Option<ContainerStatus>) {
    && s.Some? && s.value.state.running.None?
    && if s.value.state.terminated.Some? then s.value.state.terminated.value.exitCode != 0
       else s.value.state.waiting.Some? && s.value.lastState.terminated.Some?
  }

  /** The exit code an init container last ended with, if it is not running and has ended. */
  function LastExit(s: Option<ContainerStatus>): Option<int> {
    if s.None? || s.value.state.running.Some? then None
    else if s.value.state.terminated.Some? then Some(s.value.state.terminated.value.exitCode)
    else if s.value.state.waiting.Some? && s.value.lastState.terminated.Some?
      then Some(s.value.lastState.terminated.value.exitCode)
    else None
  }

  ghost predicate AllInitEnded(spec: PodSpec, info: seq<ContainerStatus>) {
    forall i :: 0 <= i < |spec.initContainers| ==> LastExit(GetStatus(info, spec.initContainers[i].name)).Some?
  }

  ghost predicate SomeInitFailed(spec: PodSpec, info: seq<ContainerStatus>) {
    exists i :: 0 <= i < |spec.initContainers| &&
      LastExit(GetStatus(info, spec.initContainers[i].name)).Some?
          && LastExit(GetStatus(info, spec.initContainers[i].name)) != Some(0)
  }

  lemma InitClassesMean(spec: PodSpec, info: seq<ContainerStatus>)
    ensures SomeInit(spec.initContainers, info, InitPending) <==> !AllInitEnded(spec, info)
    ensures SomeInit(spec.initContainers, info, InitFailed) <==> SomeInitFailed(spec, info)
  {
    forall i | 0 <= i < |spec.initContainers|
      ensures InitClassOf(GetStatus(info, spec.initContainers[i].name)) == InitPending <==>
              LastExit(GetStatus(info, spec.initContainers[i].name)).None?
      ensures InitClassOf(GetStatus(info, spec.initContainers[i].name)) == InitFailed <==>
              LastExit(GetStatus(info, spec.initContainers[i].name)).Some?
                  && LastExit(GetStatus(info, spec.initContainers[i].name)) != Some(0)
    {
    }
  }

  /** Every init container has ended, every app container has exited with code 0, and the policy neither
      restarts them nor counts a failed init container as the end. */
  ghost predicate AllSucceeded(spec: PodSpec, info: seq<ContainerStatus>) {
    && !spec.policy.Always? && spec.containers != [] && AllInitEnded(spec, info)
    && !(spec.policy.Never? && SomeInitFailed(spec, info))
    && forall i :: 0 <= i < |spec.containers| ==> Succeeded(GetStatus(info, spec.containers[i].name))
  }

  /** Nothing is ever restarted and an init container failed, or all init containers have ended, all app
      containers have stopped and one of them did not succeed. */
  ghost predicate EndedInFailure(spec: PodSpec, info: seq<ContainerStatus>) {
    && spec.policy.Never?
    && (|| SomeInitFailed(spec, info)
        || (&& AllInitEnded(spec, info)
            && (forall i :: 0 <= i < |spec.containers| ==>
                  Succeeded(GetStatus(info, spec.containers[i].name))
                      || Stopped(GetStatus(info, spec.containers[i].name)))
            && exists i :: 0 <= i < |spec.containers| && Stopped(GetStatus(info, spec.containers[i].name))))
  }

  lemma SucceedsExactly(spec: PodSpec, info: seq<ContainerStatus>)
    ensures PhaseOf(spec, info) == PodSucceeded <==> AllSucceeded(spec, info)
  {
    InitClassesMean(spec, info);
    if i :| 0 <= i < |spec.containers| && !Succeeded(GetStatus(info, spec.containers[i].name)) {
      var k := AppClassOf(GetStatus(info, spec.containers[i].name));
      assert IsApp(spec.containers[i], info, k) && k != AppSucceeded;
    } else if |spec.containers| > 0 {
      assert Succeeded(GetStatus(info, spec.containers[0].name));
    }
  }

  lemma FailsExactly(spec: PodSpec, info: seq<ContainerStatus>)
    ensures PhaseOf(spec, info) == PodFailed <==> EndedInFailure(spec, info)
  {
    InitClassesMean(spec, info);
    forall i | 0 <= i < |spec.containers|
      ensures Succeeded(GetStatus(info, spec.containers[i].name)) <==> IsApp(spec.containers[i], info, AppSucceeded)
      ensures Stopped(GetStatus(info, spec.containers[i].name)) <==> IsApp(spec.containers[i], info, AppStopped)
    {
    }
  }

  /** A container that has a status and is running, has ended, or waits after a termination. */
  predicate Started(s: Option<ContainerStatus>) {
    s.Some? && (s.value.state.running.Some? || s.value.state.terminated.Some?
                || (s.value.state.waiting.Some? && s.value.lastState.terminated.Some?))
  }

  /** A pod is Pending exactly when no failed init container ends it and an init container has not ended, or
      an app container has not started, or there is none. */
  lemma PendsExactly(spec: PodSpec, info: seq<ContainerStatus>)
    ensures PhaseOf(spec, info) == PodPending <==>
            && !(spec.policy.Never? && SomeInitFailed(spec, info))
            && (|| !AllInitEnded(spec, info) || spec.containers == []
                || exists i :: 0 <= i < |spec.containers| && !Started(GetStatus(info, spec.containers[i].name)))
  {
    InitClassesMean(spec, info);
    forall i | 0 <= i < |spec.containers|
      ensures !Started(GetStatus(info, spec.containers[i].name)) <==>
              IsApp(spec.containers[i], info, AppWaiting) || IsApp(spec.containers[i], info, AppUnknown)
    {
    }
  }

  // -------------------------------------------------------------- sorted statuses

  predicate NameLess(a: ContainerStatus, b: ContainerStatus) { StrLess(a.name, b.name) }

  /** The statuses of a map whose entries carry their own key, as a list sorted by name. */
  method SortStatuses(m: map<string, ContainerStatus>) returns (r: seq<ContainerStatus>)
    requires forall n :: n in m ==> m[n].name == n
    ensures Sorted(r, NameLess)
    ensures forall n :: n in m ==> GetStatus(r, n) == Some(m[n])
    ensures |r| == |m| && forall i :: 0 <= i < |r| ==> r[i].name in m && r[i] == m[r[i].name]
  {
    r := [];
    var rest := m.Keys;
    while rest != {}
      invariant rest <= m.Keys && |r| + |rest| == |m.Keys|
      invariant forall i :: 0 <= i < |r| ==> r[i].name in m && r[i] == m[r[i].name]
      invariant forall n :: n in m && n !in rest ==> m[n] in r
      decreases rest
    {
      var n :| n in rest;
      r := r + [m[n]];
      rest := rest - {n};
    }
    ByKeyIsWeakOrder((s: ContainerStatus) => s.name, NameLess);
    ghost var unsorted := r;
    r := Sort(r, NameLess);
    assert |multiset(r)| == |multiset(unsorted)|;
    forall x ensures x in r <==> x in unsorted { assert x in multiset(r) <==> x in multiset(unsorted); }
    forall i | 0 <= i < |r| ensures r[i].name in m && r[i] == m[r[i].name] { assert r[i] in unsorted; }
    forall n | n in m ensures GetStatus(r, n) == Some(m[n]) { GetStatusFinds(r, n, m[n]); }
  }

  lemma {:induction false} GetStatusFinds(info: seq<ContainerStatus>, name: string, s: ContainerStatus)
    requires s in info && s.name == name
    requires forall i :: 0 <= i < |info| && info[i].name == name ==> info[i] == s
    ensures GetStatus(info, name) == Some(s)
  {
    if info[0].name != name {
      assert s in info[1..];
      GetStatusFinds(info[1..], name, s);
    }
  }

  lemma {:induction false} GetStatusAppends(a: seq<ContainerStatus>, b: seq<ContainerStatus>, name: string)
    requires GetStatus(a, name).Some?
    ensures GetStatus(a + b, name) == GetStatus(a, name)
  {
    assert a + b == [a[0]] + (a[1..] + b);
    assert (a + b)[1..] == a[1..] + b;
    if a[0].name != name { GetStatusAppends(a[1..], b, name); }
  }

  // ------------------------------------------------ a running pod does not go back

  lemma {:induction false} FindReportSnoc(rs: seq<Report>, r: Report, n: string)
    ensures FindReport(rs + [r], n) ==
            if FindReport(rs, n).Some? then FindReport(rs, n) else if r.name == n then Some(r) else None
  {
    if rs == [] {
      assert rs + [r] == [r];
      assert [r][0].name == n ==> FindReport([r], n) == Some(r);
      assert FindReport([r][1..], n) == None;
    } else {
      FindReportSnoc(rs[1..], r, n);
      assert (rs + [r])[1..] == rs[1..] + [r];
    }
  }

  /** The second report of a name. */
  function SecondReport(rs: seq<Report>, n: string): Option<Report> {
    if rs == [] then None
    else if rs[0].name == n then FindReport(rs[1..], n)
    else SecondReport(rs[1..], n)
  }

  lemma {:induction false} SecondReportSnoc(rs: seq<Report>, r: Report, n: string)
    ensures SecondReport(rs + [r], n) ==
            if SecondReport(rs, n).Some? then SecondReport(rs, n)
            else if FindReport(rs, n).Some? && r.name == n then Some(r) else None
  {
    if rs == [] {
      assert rs + [r] == [r];
      assert SecondReport([r][1..], n) == None;
      assert FindReport([r][1..], n) == None;
    } else {
      assert (rs + [r])[1..] == rs[1..] + [r];
      SecondReportSnoc(rs[1..], r, n);
      FindReportSnoc(rs[1..], r, n);
    }
  }

  lemma {:induction false} AnotherReport(rs: seq<Report>, n: string, x: Report)
    requires x in rs && x.name == n && FindReport(rs, n) != Some(x)
    ensures SecondReport(rs, n).Some?
  {
    assert rs[0] != x;
    assert x in rs[1..];
    if rs[0].name != n {
      AnotherReport(rs[1..], n, x);
    }
  }

  /** The newest report decides the status, the second newest the last termination state. */
  lemma {:induction false} NewestReportsDecide(ctx: Context, n: string, s: ContainerStatus, rs: seq<Report>)
    requires s.name == n
    ensures Seen(rs, n) == 0 <==> FindReport(rs, n).None?
    ensures Seen(rs, n) <= 1 <==> SecondReport(rs, n).None?
    ensures var newest, second, old_ := FindReport(rs, n), SecondReport(rs, n), OldStatus(ctx.previous, n);
            ApplyReports(ctx, n, s, rs) ==
            if newest.None? then s
            else ConvertReport(newest.value, old_).(
                   lastState := if second.Some? then ConvertReport(second.value, old_).state else NO_STATE)
    ensures ApplyReports(ctx, n, s, rs).name == n
  {
    if rs != [] {
      var qs := rs[..|rs| - 1];
      assert rs == qs + [Last(rs)];
      NewestReportsDecide(ctx, n, s, qs);
      FindReportSnoc(qs, Last(rs), n);
      SecondReportSnoc(qs, Last(rs), n);
    }
  }

  lemma SameReported(a: seq<Report>, b: seq<Report>, n: string)
    requires multiset(a) == multiset(b)
    ensures Reported(a, n) ==> Reported(b, n)
  {
    if Reported(a, n) {
      var i :| 0 <= i < |a| && a[i].name == n;
      assert a[i] in multiset(b);
      var j :| 0 <= j < |b| && b[j] == a[i];
    }
  }

  /** The container was running in the previous status, and nothing else. */
  ghost predicate WasRunning(ctx: Context, n: string) {
    var o := OldStatus(ctx.previous, n);
    o.Some? && o.value.state.running.Some? && o.value.state.terminated.None?
  }

  /** A container that was running and is no longer reported is recorded as terminated with code 137 and,
      unless the pod is being deleted, as restarted once more; a termination already on record is kept. */
  lemma LostContainerIsRecorded(ctx: Context, sorted: seq<Report>, c: Container)
    requires NewestFirst(ctx.reports, sorted) && WasRunning(ctx, c.name) && FindReport(sorted, c.name).None?
    ensures var old_ := OldStatus(ctx.previous, c.name).value;
            var s := FinalStatus(ctx, sorted, c.name, DefaultStatus(ctx, c));
            if old_.lastState.terminated.Some?
            then s.lastState == old_.lastState && s.restartCount == old_.restartCount
            else s.lastState.terminated == Some(LOST_WHEN_DELETED)
                 && s.restartCount == old_.restartCount + (if ctx.deleting then 0 else 1)
  {
    NewestReportsDecide(ctx, c.name, InferTermination(ctx, c.name, DefaultStatus(ctx, c)), sorted);
    SameReported(ctx.reports, sorted, c.name);
  }

  predicate IsRunning(r: Option<Report>) { r.Some? && r.value.state.Running? }

  ghost predicate ShownRunning(ctx: Context, n: string) {
    var o := OldStatus(ctx.previous, n);
    o.Some? && o.value.state.running.Some?
  }

  /** The report is converted into a terminated state. */
  ghost predicate Ended(ctx: Context, r: Option<Report>, n: string) {
    r.Some? && (r.value.state.Created? || r.value.state.Exited? || (r.value.state.Unknown? && ShownRunning(ctx, n)))
  }

  /** A container shown as waiting to start although it runs: its newest report says running and the one
      before not that it ended, yet it is marked for restart, because the report found first is another one,
      and a start failure is on record. */
  ghost predicate Misjudged(ctx: Context, sorted: seq<Report>, n: string) {
    && IsRunning(FindReport(sorted, n)) && !Ended(ctx, SecondReport(sorted, n), n)
    && ShouldRestart(ctx, n) && n in ctx.reasons
  }

  /** A container shown as waiting to start because its state could not be read: it was not shown as running,
      its newest report says unknown, and no report before that it ended. */
  ghost predicate Unreadable(ctx: Context, sorted: seq<Report>, n: string) {
    && !ShownRunning(ctx, n)
    && FindReport(sorted, n).Some? && FindReport(sorted, n).value.state.Unknown?
    && !Ended(ctx, SecondReport(sorted, n), n)
  }

  /** The container had started: the previous status shows it running, terminated, or waiting after a
      termination. */
  ghost predicate HadStarted(ctx: Context, n: string) {
    AppClassOf(OldStatus(ctx.previous, n)) in {AppRunning, AppSucceeded, AppStopped}
  }

  lemma RestartNeedsAnotherReport(ctx: Context, sorted: seq<Report>, n: string)
    requires NewestFirst(ctx.reports, sorted) && ShouldRestart(ctx, n)
    requires IsRunning(FindReport(sorted, n))
    ensures SecondReport(sorted, n).Some?
  {
    SameReported(sorted, ctx.reports, n);
    var x := FindReport(ctx.reports, n).value;
    assert x in multiset(sorted);
    AnotherReport(sorted, n, x);
  }

  /** What the first three passes make of a container that had started, by its newest report. */
  ghost predicate Merged(ctx: Context, sorted: seq<Report>, n: string, f: ContainerStatus) {
    var newest, second := FindReport(sorted, n), SecondReport(sorted, n);
    && f.name == n
    && (newest.None? ==>
          && AppClassOf(Some(f)) in {AppRunning, AppSucceeded, AppStopped}
          && (f.state.terminated.Some? || f.lastState.terminated.Some?))
    && (newest.Some? ==> (f.lastState.terminated.Some? <==> Ended(ctx, second, n)))
    && (IsRunning(newest) ==> f.state.running.Some? && f.state.terminated.None?)
    && (Ended(ctx, newest, n) ==> f.state.running.None? && f.state.terminated.Some?)
    && (newest.Some? && !IsRunning(newest) && !Ended(ctx, newest, n) ==>
          f.state.running.None? && f.state.terminated.None? && f.state.waiting.Some?)
  }

  lemma UnreportedIsMerged(ctx: Context, sorted: seq<Report>, c: Container, f: ContainerStatus)
    requires NewestFirst(ctx.reports, sorted) && HadStarted(ctx, c.name) && FindReport(sorted, c.name).None?
    requires f == ApplyReports(ctx, c.name, InferTermination(ctx, c.name, DefaultStatus(ctx, c)), sorted)
    ensures Merged(ctx, sorted, c.name, f)
  {
    NewestReportsDecide(ctx, c.name, InferTermination(ctx, c.name, DefaultStatus(ctx, c)), sorted);
    SameReported(ctx.reports, sorted, c.name);
  }

  lemma ReportedIsMerged(ctx: Context, sorted: seq<Report>, c: Container, f: ContainerStatus)
    requires FindReport(sorted, c.name).Some?
    requires f == ApplyReports(ctx, c.name, InferTermination(ctx, c.name, DefaultStatus(ctx, c)), sorted)
    ensures Merged(ctx, sorted, c.name, f)
  {
    NewestReportsDecide(ctx, c.name, InferTermination(ctx, c.name, DefaultStatus(ctx, c)), sorted);
  }

  /** The last pass. */
  lemma ReasonsDecide(ctx: Context, sorted: seq<Report>, n: string, f: ContainerStatus)
    requires !ctx.isInit && Merged(ctx, sorted, n, f)
    ensures var s := ApplyReason(ctx, n, f);
            && s.name == n
            && AppClassOf(Some(s)) != AppUnknown
            && (AppClassOf(Some(s)) == AppWaiting <==> Misjudged(ctx, sorted, n) || Unreadable(ctx, sorted, n))
  {
    var s := ApplyReason(ctx, n, f);
    if ShouldRestart(ctx, n) && n in ctx.reasons {
      assert s.state.running.None? && s.state.terminated.None? && s.state.waiting.Some?;
    }
  }

  /** The final status of a container that had started shows it running or stopped, never unknown, and
      shows it waiting to start exactly when it is misjudged or its state could not be read. */
  lemma WhenAStartedContainerWaits(ctx: Context, sorted: seq<Report>, c: Container)
    requires !ctx.isInit
    requires NewestFirst(ctx.reports, sorted) && HadStarted(ctx, c.name)
    ensures var s := FinalStatus(ctx, sorted, c.name, DefaultStatus(ctx, c));
            && s.name == c.name
            && AppClassOf(Some(s)) != AppUnknown
            && (AppClassOf(Some(s)) == AppWaiting <==>
                Misjudged(ctx, sorted, c.name) || Unreadable(ctx, sorted, c.name))
  {
    var f := ApplyReports(ctx, c.name, InferTermination(ctx, c.name, DefaultStatus(ctx, c)), sorted);
    if FindReport(sorted, c.name).None? {
      UnreportedIsMerged(ctx, sorted, c, f);
    } else {
      ReportedIsMerged(ctx, sorted, c, f);
    }
    ReasonsDecide(ctx, sorted, c.name, f);
  }

  /** For a container that was running only misjudging is left, and then both newest reports say running. */
  lemma WhenARunningContainerWaits(ctx: Context, sorted: seq<Report>, c: Container)
    requires !ctx.isInit
    requires NewestFirst(ctx.reports, sorted) && WasRunning(ctx, c.name)
    ensures var s := FinalStatus(ctx, sorted, c.name, DefaultStatus(ctx, c));
            && s.name == c.name
            && AppClassOf(Some(s)) != AppUnknown
            && (AppClassOf(Some(s)) == AppWaiting <==> Misjudged(ctx, sorted, c.name))
    ensures Misjudged(ctx, sorted, c.name) <==>
            && IsRunning(FindReport(sorted, c.name)) && IsRunning(SecondReport(sorted, c.name))
            && ShouldRestart(ctx, c.name) && c.name in ctx.reasons
  {
    WhenAStartedContainerWaits(ctx, sorted, c);
    if IsRunning(FindReport(sorted, c.name)) && ShouldRestart(ctx, c.name) {
      RestartNeedsAnotherReport(ctx, sorted, c.name);
    }
  }

  lemma TiesAreSorted(rs: seq<Report>, t: int)
    requires forall i :: 0 <= i < |rs| ==> rs[i].createdAt == t
    ensures Sorted(rs, NewerFirst)
  {
  }

  /** Misjudging happens: of three reports created at the same instant the runtime lists an exited one first,
      sorting puts the two running ones first, and a start failure is on record. */
  lemma MisjudgedContainer(exited: Report, older: Report, newer: Report, ctx: Context)
    requires exited == Report("c", "", "", "1", Exited, 1, "", "", 1, 1, 2, 0)
    requires older == Report("c", "", "", "2", Running, 0, "", "", 1, 3, 0, 1) && newer == older.(id := "3")
    requires ctx == Context([ContainerStatus("c", "", "", "3", State(None, Some(3), None), NO_STATE, 1)],
                            [exited, older, newer], map["c" := Waiting("CrashLoopBackOff", "")],
                            false, false, false, Always)
    ensures Sorted(ctx.reports, NewerFirst) && NewestFirst(ctx.reports, [newer, older, exited])
    ensures WasRunning(ctx, "c") && Misjudged(ctx, [newer, older, exited], "c")
  {
    ReversedPermutes(exited, older, newer);
    TiesAreSorted([exited, older, newer], 1);
    TiesAreSorted([newer, older, exited], 1);
    assert [newer, older, exited][1..][0] == older;
    assert SecondReport([newer, older, exited], "c") == Some(older);
    assert OldStatus(ctx.previous, "c") == Some(ctx.previous[0]);
  }

  /** In a list that is newest first, the report found first is as new as any of its name. */
  lemma {:induction false} FoundIsNewest(rs: seq<Report>, n: string, r: Report)
    requires Sorted(rs, NewerFirst) && r in rs && r.name == n
    ensures FindReport(rs, n).Some? && FindReport(rs, n).value.createdAt >= r.createdAt
  {
    var k :| 0 <= k < |rs| && rs[k] == r;
    assert Reported(rs, n);
    if rs[0].name == n {
      assert k > 0 ==> !NewerFirst(rs[k], rs[0]);
    } else {
      assert r in rs[1..] && Sorted(rs[1..], NewerFirst);
      FoundIsNewest(rs[1..], n, r);
    }
  }

  /** Nothing is misjudged if the runtime lists its reports newest first, as it sorts them, and no two of the
      container's reports were created at the same instant. */
  lemma SortedReportsAreNotMisjudged(ctx: Context, sorted: seq<Report>, n: string)
    requires NewestFirst(ctx.reports, sorted) && Sorted(ctx.reports, NewerFirst)
    requires forall x, y :: x in ctx.reports && y in ctx.reports && x.name == y.name == n ==>
               x.createdAt == y.createdAt ==> x == y
    ensures !Misjudged(ctx, sorted, n)
  {
    var found := FindReport(sorted, n);
    if found.Some? {
      assert found.value in multiset(ctx.reports);
      FoundIsNewest(ctx.reports, n, found.value);
      var first := FindReport(ctx.reports, n).value;
      assert first in multiset(sorted);
      FoundIsNewest(sorted, n, first);
    }
  }

  /** The converted statuses of the app containers of a pod, as a list. */
  ghost predicate Converted(ctx: Context, sorted: seq<Report>, cs: seq<Container>, out: seq<ContainerStatus>) {
    forall i :: 0 <= i < |cs| ==>
      LastNamed(cs, cs[i].name).Some? &&
      GetStatus(out, cs[i].name) ==
          Some(FinalStatus(ctx, sorted, cs[i].name, DefaultStatus(ctx, LastNamed(cs, cs[i].name).value)))
  }

  lemma FinalStatusIsNamed(ctx: Context, sorted: seq<Report>, c: Container)
    ensures FinalStatus(ctx, sorted, c.name, DefaultStatus(ctx, c)).name == c.name
  {
    NewestReportsDecide(ctx, c.name, InferTermination(ctx, c.name, DefaultStatus(ctx, c)), sorted);
  }

  /** The map that the passes leave. */
  ghost predicate FinalStatuses(ctx: Context, sorted: seq<Report>, cs: seq<Container>, m: map<string,
                                ContainerStatus>) {
    && (forall n :: n in m <==> NamedIn(cs, n))
    && forall n :: n in m ==>
         LastNamed(cs, n).Some? && m[n] == FinalStatus(ctx, sorted, n, DefaultStatus(ctx, LastNamed(cs, n).value))
  }

  lemma AllNamed(ctx: Context, sorted: seq<Report>, cs: seq<Container>, m: map<string, ContainerStatus>)
    requires FinalStatuses(ctx, sorted, cs, m)
    ensures forall n :: n in m ==> m[n].name == n
  {
    forall n | n in m ensures m[n].name == n {
      FinalStatusIsNamed(ctx, sorted, LastNamed(cs, n).value);
    }
  }

  lemma LookedUp(ctx: Context, sorted: seq<Report>, cs: seq<Container>, m: map<string, ContainerStatus>,
                 out: seq<ContainerStatus>)
    requires FinalStatuses(ctx, sorted, cs, m) && forall n :: n in m ==> GetStatus(out, n) == Some(m[n])
    ensures Converted(ctx, sorted, cs, out)
  {
    forall i | 0 <= i < |cs| ensures cs[i].name in m {
      assert NamedIn(cs, cs[i].name);
    }
  }

  /** `SortStatusesOfInitContainers`: the statuses of a map in the order of the spec. */
  method InSpecOrder(m: map<string, ContainerStatus>, cs: seq<Container>) returns (r: seq<ContainerStatus>)
    requires forall n :: n in m <==> NamedIn(cs, n)
    requires forall n :: n in m ==> m[n].name == n
    ensures |r| == |cs| && forall i :: 0 <= i < |cs| ==> r[i].name == cs[i].name
    ensures forall i :: 0 <= i < |r| ==> r[i].name in m && r[i] == m[r[i].name]
    ensures forall n :: n in m ==> GetStatus(r, n) == Some(m[n])
  {
    r := [];
    for i := 0 to |cs|
      invariant |r| == i && forall j :: 0 <= j < i ==> cs[j].name in m && r[j] == m[cs[j].name]
    {
      assert NamedIn(cs, cs[i].name);
      if cs[i].name in m {
        r := r + [m[cs[i].name]];
      }
    }
    forall n | n in m ensures GetStatus(r, n) == Some(m[n]) {
      assert NamedIn(cs, n);
      var i :| 0 <= i < |cs| && cs[i].name == n;
      assert r[i] == m[n];
      GetStatusFinds(r, n, m[n]);
    }
  }

  /** `convertToAPIContainerStatuses`: app containers sorted by name, init containers in spec order. */
  method ConvertToAPIContainerStatuses(ctx: Context, cs: seq<Container>)
    returns (out: seq<ContainerStatus>, ghost sorted: seq<Report>)
    ensures NewestFirst(ctx.reports, sorted) && Converted(ctx, sorted, cs, out)
    ensures ctx.isInit ==> |out| == |cs| && forall i :: 0 <= i < |cs| ==> out[i].name == cs[i].name
    ensures !ctx.isInit ==> Sorted(out, NameLess)
    ensures OneStatusPerName(out)
  {
    var m;
    m, sorted := ConvertStatuses(ctx, cs);
    AllNamed(ctx, sorted, cs, m);
    if ctx.isInit {
      out := InSpecOrder(m, cs);
    } else {
      out := SortStatuses(m);
    }
    FromMap(out, m);
    LookedUp(ctx, sorted, cs, m, out);
  }

  /** Some app container is shown as waiting to start although it had started. */
  ghost predicate SomeShownWaiting(ctx: Context, sorted: seq<Report>, cs: seq<Container>) {
    exists i :: 0 <= i < |cs| && (Misjudged(ctx, sorted, cs[i].name) || Unreadable(ctx, sorted, cs[i].name))
  }

  /** For a pod whose app containers had all started, whatever the runtime reports, the phase computed from
      the converted statuses is Pending if and only if no failed init container ends the pod and either an
      init container is pending or an app container is misjudged or could not be read. */
  lemma WhenAStartedPodIsPending(ctx: Context, sorted: seq<Report>, spec: PodSpec, out: seq<ContainerStatus>,
                                 init: seq<ContainerStatus>)
    requires !ctx.isInit && spec.containers != []
    requires NewestFirst(ctx.reports, sorted) && Converted(ctx, sorted, spec.containers, out)
    requires forall i :: 0 <= i < |spec.containers| ==> HadStarted(ctx, spec.containers[i].name)
    ensures PhaseOf(spec, out + init) == PodPending <==>
            && !(spec.policy.Never? && SomeInit(spec.initContainers, out + init, InitFailed))
            && (SomeInit(spec.initContainers, out + init, InitPending)
                || SomeShownWaiting(ctx, sorted, spec.containers))
  {
    forall i | 0 <= i < |spec.containers|
      ensures var n := spec.containers[i].name;
              var k := AppClassOf(GetStatus(out + init, n));
              k != AppUnknown && (k == AppWaiting <==> Misjudged(ctx, sorted, n) || Unreadable(ctx, sorted, n))
    {
      var n := spec.containers[i].name;
      WhenAStartedContainerWaits(ctx, sorted, LastNamed(spec.containers, n).value);
      GetStatusAppends(out, init, n);
    }
    AppClassesMean(ctx, sorted, spec.containers, out + init);
  }

  lemma AppClassesMean(ctx: Context, sorted: seq<Report>, cs: seq<Container>, info: seq<ContainerStatus>)
    requires forall i :: 0 <= i < |cs| ==>
               var k := AppClassOf(GetStatus(info, cs[i].name));
               && k != AppUnknown
               && (k == AppWaiting <==> Misjudged(ctx, sorted, cs[i].name) || Unreadable(ctx, sorted, cs[i].name))
    ensures !SomeApp(cs, info, AppUnknown)
    ensures SomeApp(cs, info, AppWaiting) <==> SomeShownWaiting(ctx, sorted, cs)
  {
    if SomeShownWaiting(ctx, sorted, cs) {
      var i :| 0 <= i < |cs| && (Misjudged(ctx, sorted, cs[i].name) || Unreadable(ctx, sorted, cs[i].name));
      assert IsApp(cs[i], info, AppWaiting);
    }
  }

  /** If the app containers were all running, of these two cases only misjudging is left. */
  lemma WhenARunningPodIsPending(ctx: Context, sorted: seq<Report>, spec: PodSpec, out: seq<ContainerStatus>,
                                 init: seq<ContainerStatus>)
    requires !ctx.isInit && spec.containers != []
    requires NewestFirst(ctx.reports, sorted) && Converted(ctx, sorted, spec.containers, out)
    requires forall i :: 0 <= i < |spec.containers| ==> WasRunning(ctx, spec.containers[i].name)
    ensures PhaseOf(spec, out + init) == PodPending <==>
            && !(spec.policy.Never? && SomeInit(spec.initContainers, out + init, InitFailed))
            && (SomeInit(spec.initContainers, out + init, InitPending)
                || exists i :: 0 <= i < |spec.containers| && Misjudged(ctx, sorted, spec.containers[i].name))
  {
    WhenAStartedPodIsPending(ctx, sorted, spec, out, init);
  }

  // --------------------------------------------------------- statuses as they are stored

  /** Statuses with the same name are the same, as a conversion leaves them. */
  ghost predicate OneStatusPerName(info: seq<ContainerStatus>) {
    forall i, j :: 0 <= i < |info| && 0 <= j < |info| && info[i].name == info[j].name ==> info[i] == info[j]
  }

  lemma FromMap(info: seq<ContainerStatus>, m: map<string, ContainerStatus>)
    requires forall i :: 0 <= i < |info| ==> info[i].name in m && info[i] == m[info[i].name]
    ensures OneStatusPerName(info)
  {
  }

  /** Then the last one of a name, which the conversion reads, is the first, which the phase reads. */
  lemma {:induction false} LastIsFirst(info: seq<ContainerStatus>, n: string)
    requires OneStatusPerName(info)
    ensures OldStatus(info, n) == GetStatus(info, n)
  {
    if info != [] {
      var rest := info[..|info| - 1];
      assert info == rest + [Last(info)];
      LastIsFirst(rest, n);
      if GetStatus(rest, n).Some? {
        GetStatusAppends(rest, [Last(info)], n);
        var s := GetStatus(rest, n).value;
        var i :| 0 <= i < |rest| && rest[i] == s;
        assert info[i] == s;
      } else {
        GetStatusSkips(rest, Last(info), n);
      }
    }
  }

  lemma {:induction false} GetStatusSkips(a: seq<ContainerStatus>, s: ContainerStatus, n: string)
    requires GetStatus(a, n).None?
    ensures GetStatus(a + [s], n) == if s.name == n then Some(s) else None
  {
    if a == [] {
      assert a + [s] == [s] && [s][1..] == [];
    } else {
      assert (a + [s])[1..] == a[1..] + [s] && (a + [s])[0] == a[0];
      GetStatusSkips(a[1..], s, n);
    }
  }
}
