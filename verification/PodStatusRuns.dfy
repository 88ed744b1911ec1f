/** The phase part of `generateAPIPodStatus` and of the not-runnable override in `syncPod`, over runs. */
module PodStatusRuns {
  import opened Wrappers
  import opened Order
  import opened ContainerStatuses
  import opened PodPhase
  import opened StatusOutcomes

  datatype PodStatus = PodStatus(phase: Phase, containers: seq<ContainerStatus>, initContainers: seq<ContainerStatus>)

  // -------------------------------------------------------- merging three phases

  /** The computed phase merged with the stored and the API server's phase, eviction, and the rule that
      the API server's terminal phase stands. */
  function MergePhase(computed: Phase, stored: Phase, api: Phase, evict: bool): (r: Phase)
    ensures Terminal(api) ==> r == api
    ensures Terminal(stored) ==> Terminal(r)
    ensures Terminal(computed) ==> Terminal(r)
    ensures evict ==> Terminal(r)
    ensures !Terminal(r) ==> r == computed
    ensures evict && !Terminal(api) ==> r == PodFailed
    ensures !evict && !Terminal(api) && Terminal(computed) ==> r == computed
    ensures !evict && !Terminal(api) && !Terminal(computed) && Terminal(stored) ==> r == stored
  {
    var merged :=
      if Terminal(computed) then computed
      else if Terminal(stored) then stored
      else if Terminal(api) then api
      else computed;
    var evicted := if evict then PodFailed else merged;
    if Terminal(api) then api else evicted
  }

  /** A pod that may not run is pending, unless it has finished. */
  function Block(p: Phase, admit: bool): (r: Phase)
    ensures r == p || (r == PodPending && !admit && !Terminal(p))
    ensures !admit ==> r == PodPending || Terminal(r)
  {
    if admit || Terminal(p) then p else PodPending
  }

  /** One status generation: what the containers say, what the API server shows, and two verdicts. */
  datatype Generation = Generation(computed: Phase, api: Phase, evict: bool, admit: bool)

  /** The phase stored by one generation; without a stored status the API server's is the old one. */
  function Store(stored: Option<Phase>, g: Generation): Phase {
    Block(MergePhase(g.computed, if stored.Some? then stored.value else g.api, g.api, g.evict), g.admit)
  }

  function StoredAfter(stored: Option<Phase>, gs: seq<Generation>): Option<Phase> {
    if gs == [] then stored else Some(Store(StoredAfter(stored, gs[..|gs| - 1]), Last(gs)))
  }

  /** A finished pod stays finished for the rest of every run, and after each generation the stored
      phase is the API server's whenever that is terminal. */
  lemma {:induction false} FinishedStaysFinished(stored: Option<Phase>, gs: seq<Generation>, i: nat)
    requires i <= |gs|
    ensures var at := StoredAfter(stored, gs[..i]); at.Some? && Terminal(at.value) ==>
            var end := StoredAfter(stored, gs); end.Some? && Terminal(end.value)
    ensures 0 < i && Terminal(gs[i - 1].api) ==> StoredAfter(stored, gs[..i]) == Some(gs[i - 1].api)
    decreases |gs| - i
  {
    if 0 < i {
      assert gs[..i][..i - 1] == gs[..i - 1] && Last(gs[..i]) == gs[i - 1];
    }
    if i == |gs| {
      assert gs[..i] == gs;
    } else {
      assert gs[..i + 1][..i] == gs[..i] && Last(gs[..i + 1]) == gs[i];
      FinishedStaysFinished(stored, gs, i + 1);
    }
  }

  /** A generation turns one terminal phase into the other exactly when the API server already shows the
      other; or it shows no terminal phase and either a succeeded pod is evicted or the containers
      themselves compute the other. */
  lemma TerminalPhaseSwitches(p: Phase, g: Generation)
    requires Terminal(p)
    ensures Store(Some(p), g) != p <==>
            || (Terminal(g.api) && g.api != p)
            || (!Terminal(g.api) && g.evict && p == PodSucceeded)
            || (!Terminal(g.api) && !g.evict && Terminal(g.computed) && g.computed != p)
  {
  }

  /** If the API server only ever shows nothing terminal or what was stored at the time, no pod is
      evicted, and the containers never compute the other terminal phase, a terminal phase is final. */
  lemma {:induction false} TerminalPhaseIsFinal(p: Phase, gs: seq<Generation>)
    requires Terminal(p)
    requires forall i :: 0 <= i < |gs| ==>
               && (Terminal(gs[i].api) ==> gs[i].api == p)
               && (Terminal(gs[i].computed) ==> gs[i].computed == p)
               && (gs[i].evict ==> p == PodFailed || Terminal(gs[i].api))
    ensures StoredAfter(Some(p), gs) == Some(p)
  {
    if gs != [] {
      TerminalPhaseIsFinal(p, gs[..|gs| - 1]);
      TerminalPhaseSwitches(p, Last(gs));
    }
  }

  // ------------------------------------------------------------- the whole computation

  function AppContext(spec: PodSpec, stored: PodStatus, reports: seq<Report>, reasons: map<string, Waiting>,
                      deleting: bool): Context {
    Context(stored.containers, reports, reasons, spec.initContainers != [], false, deleting, spec.policy)
  }

  function InitContext(spec: PodSpec, stored: PodStatus, reports: seq<Report>, reasons: map<string, Waiting>,
                       deleting: bool): Context {
    Context(stored.initContainers, reports, reasons, spec.initContainers != [], true, deleting, spec.policy)
  }

  /** The merge step by step; each element of `evictions` is one handler's verdict. */
  method MergePhases(computed: Phase, stored: Phase, api: Phase, evictions: seq<bool>) returns (phase: Phase)
    ensures phase == MergePhase(computed, stored, api, true in evictions)
  {
    phase := computed;
    if !Terminal(phase) {
      if Terminal(stored) {
        phase := stored;
      } else if Terminal(api) {
        phase := api;
      }
    }
    ghost var merged := phase;
    var i := 0;
    while i < |evictions|
      invariant 0 <= i <= |evictions| && true !in evictions[..i] && phase == merged
    {
      if evictions[i] {
        phase := PodFailed;
        break;
      }
      i := i + 1;
    }
    assert true in evictions <==> i < |evictions|;
    if Terminal(api) && phase != api {
      phase := api;
    }
  }

  /** A status as a generation leaves it, before and after the not-runnable override: every app container has
      one status, and a phase Running is the computed one. */
  ghost predicate Generated(spec: PodSpec, s: PodStatus) {
    && OneStatusPerName(s.containers)
    && (forall i :: 0 <= i < |spec.containers| ==> GetStatus(s.containers, spec.containers[i].name).Some?)
    && (s.phase == PodRunning ==> PhaseOf(spec, s.containers + s.initContainers) == PodRunning)
  }

  /** There are only app containers and all of them exited, and neither the API server's or the stored phase nor
      an eviction overrules what they say. */
  ghost predicate ExitsCount(spec: PodSpec, stored: PodStatus, api: PodStatus, reports: seq<Report>,
                             reasons: map<string, Waiting>, deleting: bool, evictions: seq<bool>,
                             sorted: seq<Report>) {
    && spec.containers != [] && spec.initContainers == []
    && AllExited(AppContext(spec, stored, reports, reasons, deleting), sorted, spec.containers)
    && true !in evictions && !Terminal(api.phase)
    && (Terminal(stored.phase) ==> Terminal(ExitPhase(spec, sorted)))
  }

  /** `generateAPIPodStatus`: convert the statuses, compute the phase, merge it. */
  method GenerateAPIPodStatus(spec: PodSpec, found: Option<PodStatus>, api: PodStatus, reports: seq<Report>,
                              reasons: map<string, Waiting>, deleting: bool, evictions: seq<bool>)
    returns (s: PodStatus, ghost sorted: seq<Report>, ghost initSorted: seq<Report>)
    ensures var stored := if found.Some? then found.value else api;
            && NewestFirst(reports, sorted)
            && Converted(AppContext(spec, stored, reports, reasons, deleting), sorted, spec.containers, s.containers)
            && NewestFirst(reports, initSorted)
            && Converted(InitContext(spec, stored, reports, reasons, deleting), initSorted, spec.initContainers,
                         s.initContainers)
    ensures var stored := if found.Some? then found.value else api;
            s.phase == MergePhase(PhaseOf(spec, s.containers + s.initContainers), stored.phase, api.phase,
                                  true in evictions)
    ensures Generated(spec, s) && forall admit :: Generated(spec, s.(phase := Block(s.phase, admit)))
    ensures var stored := if found.Some? then found.value else api;
            ExitsCount(spec, stored, api, reports, reasons, deleting, evictions, sorted) ==>
              s.phase == ExitPhase(spec, sorted)
  {
    var stored := if found.Some? then found.value else api;
    var containers, initContainers;
    var app, init :=
      AppContext(spec, stored, reports, reasons, deleting), InitContext(spec, stored, reports, reasons, deleting);
    containers, sorted := ConvertToAPIContainerStatuses(app, spec.containers);
    initContainers, initSorted := ConvertToAPIContainerStatuses(init, spec.initContainers);
    var computed := GetPhase(spec, containers + initContainers);
    var phase := MergePhases(computed, stored.phase, api.phase, evictions);
    s := PodStatus(phase, containers, initContainers);
    if spec.containers != [] && spec.initContainers == [] && AllExited(app, sorted, spec.containers) {
      ExitCodesDecide(app, sorted, spec, containers, initContainers);
    }
  }

  /** In a pod stored as Running every app container had started. */
  lemma RunningPodHadStarted(spec: PodSpec, stored: PodStatus, reports: seq<Report>, reasons: map<string, Waiting>,
                             deleting: bool)
    requires Generated(spec, stored) && stored.phase == PodRunning
    ensures spec.containers != []
    ensures forall i :: 0 <= i < |spec.containers| ==>
              HadStarted(AppContext(spec, stored, reports, reasons, deleting), spec.containers[i].name)
  {
    var info := stored.containers + stored.initContainers;
    forall i | 0 <= i < |spec.containers|
      ensures HadStarted(AppContext(spec, stored, reports, reasons, deleting), spec.containers[i].name)
    {
      var n := spec.containers[i].name;
      LastIsFirst(stored.containers, n);
      GetStatusAppends(stored.containers, stored.initContainers, n);
      assert IsApp(spec.containers[i], info, AppClassOf(GetStatus(info, n)));
    }
  }

  /** When all app containers of a pod had started, one generation with the not-runnable override stores
      Pending exactly when the stored and the API phase are not terminal, nothing evicts the pod, its
      containers have not ended it, and either the pod may not run, or an init container has not ended, or
      an app container is misjudged or could not be read. */
  lemma WhenAStartedPodTurnsPending(spec: PodSpec, stored: PodStatus, api: PodStatus, reports: seq<Report>,
                                    reasons: map<string, Waiting>, deleting: bool, evict: bool, admit: bool,
                                    sorted: seq<Report>, s: PodStatus)
    requires spec.containers != []
    requires NewestFirst(reports, sorted)
    requires var ctx := AppContext(spec, stored, reports, reasons, deleting);
             && Converted(ctx, sorted, spec.containers, s.containers)
             && forall i :: 0 <= i < |spec.containers| ==> HadStarted(ctx, spec.containers[i].name)
    requires s.phase == MergePhase(PhaseOf(spec, s.containers + s.initContainers), stored.phase, api.phase, evict)
    ensures var ctx := AppContext(spec, stored, reports, reasons, deleting);
            var info := s.containers + s.initContainers;
            Block(s.phase, admit) == PodPending <==>
            && !Terminal(stored.phase) && !Terminal(api.phase) && !evict
            && !AllSucceeded(spec, info) && !EndedInFailure(spec, info)
            && (!admit || !AllInitEnded(spec, info) || SomeShownWaiting(ctx, sorted, spec.containers))
  {
    var info := s.containers + s.initContainers;
    WhenAStartedPodIsPending(AppContext(spec, stored, reports, reasons, deleting), sorted, spec, s.containers,
                             s.initContainers);
    InitClassesMean(spec, info);
    SucceedsExactly(spec, info);
    FailsExactly(spec, info);
  }

  /** In particular for every pod stored as Running. */
  lemma WhenARunningPodTurnsPending(spec: PodSpec, stored: PodStatus, api: PodStatus, reports: seq<Report>,
                                    reasons: map<string, Waiting>, deleting: bool, evict: bool, admit: bool,
                                    sorted: seq<Report>, s: PodStatus)
    requires Generated(spec, stored) && stored.phase == PodRunning
    requires NewestFirst(reports, sorted)
    requires Converted(AppContext(spec, stored, reports, reasons, deleting), sorted, spec.containers, s.containers)
    requires s.phase == MergePhase(PhaseOf(spec, s.containers + s.initContainers), stored.phase, api.phase, evict)
    ensures var ctx := AppContext(spec, stored, reports, reasons, deleting);
            var info := s.containers + s.initContainers;
            Block(s.phase, admit) == PodPending <==>
            && !Terminal(api.phase) && !evict
            && !AllSucceeded(spec, info) && !EndedInFailure(spec, info)
            && (!admit || !AllInitEnded(spec, info) || SomeShownWaiting(ctx, sorted, spec.containers))
  {
    RunningPodHadStarted(spec, stored, reports, reasons, deleting);
    WhenAStartedPodTurnsPending(spec, stored, api, reports, reasons, deleting, evict, admit, sorted, s);
  }

  /** It happens without any tie or start failure: a container that exited and is to be restarted, whose only
      report now says unknown, turns a pod stored as Running into a Pending one. */
  lemma UnknownReportTurnsPending(spec: PodSpec, ended: Terminated, stored: PodStatus, report: Report,
                                  out: ContainerStatus)
    requires spec == PodSpec([], [Container("c", "")], Always)
    requires ended == Terminated(1, "", "", 1, 2, "1")
    requires stored ==
             PodStatus(PodRunning, [ContainerStatus("c", "", "", "1", State(None, None, Some(ended)), NO_STATE, 0)], [])
    requires report == Report("c", "", "", "2", Unknown, 0, "", "", 3, 0, 0, 1)
    requires out == ConvertReport(report, Some(stored.containers[0]))
    ensures Generated(spec, stored) && Sorted([report], NewerFirst) && NewestFirst([report], [report])
    ensures var ctx := AppContext(spec, stored, [report], map[], false);
            && Converted(ctx, [report], spec.containers, [out])
            && !Misjudged(ctx, [report], "c") && Unreadable(ctx, [report], "c")
    ensures PhaseOf(spec, [out]) == PodPending
    ensures MergePhase(PhaseOf(spec, [out]), stored.phase, PodRunning, false) == PodPending
  {
    var ctx, c, old_ := AppContext(spec, stored, [report], map[], false), spec.containers[0], stored.containers[0];
    StoredAsRunning(spec, stored);
    OnlyOne(ctx, c, old_, report);
    assert IsApp(c, [out], AppWaiting) by { assert GetStatus([out], "c") == Some(out); }
  }

  lemma StoredAsRunning(spec: PodSpec, stored: PodStatus)
    requires |spec.containers| == 1 && spec.initContainers == [] && spec.policy == Always
    requires |stored.containers| == 1 && stored.initContainers == []
    requires stored.containers[0].name == spec.containers[0].name && Stopped(Some(stored.containers[0]))
    ensures Generated(spec, stored)
  {
    var info := stored.containers + stored.initContainers;
    assert info == stored.containers;
    assert GetStatus(info, spec.containers[0].name) == Some(info[0]);
    assert IsApp(spec.containers[0], info, AppStopped);
  }

  lemma OnlyOne(ctx: Context, c: Container, old_: ContainerStatus, r: Report)
    requires ctx.previous == [old_] && ctx.reports == [r] && ctx.reasons == map[] && !ctx.isInit
    requires old_.name == c.name == r.name
    ensures OldStatus(ctx.previous, c.name) == Some(old_)
    ensures FindReport([r], c.name) == Some(r) && SecondReport([r], c.name).None?
    ensures Converted(ctx, [r], [c], [ConvertReport(r, Some(old_))])
  {
    assert [r][1..] == [] && [r][..0] == [] && [old_][..0] == [] && [c][..0] == [];
    assert LastNamed([c], c.name) == Some(c);
    assert Seen([r][..0], c.name) == 0;
    assert FinalStatus(ctx, [r], c.name, DefaultStatus(ctx, c)) == ConvertReport(r, Some(old_));
  }
}
