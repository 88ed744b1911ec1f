/** Whole runs of the service tracker: any batching of the same events gives the same map. */
module ServiceRuns {
  import opened Wrappers
  import opened EndpointSlices
  import opened ServiceChanges

  datatype Proxy = Proxy(items: Items, m: ServiceMap)

  /** A watch event, or an application of the accumulated changes in some order. */
  datatype Event =
    | ServiceEvent(previous: Option<Service>, current: Option<Service>)
    | ApplyEvent(order: seq<NamespacedName>)

  /** The services as last reported, by name. */
  type Live = map<NamespacedName, Service>

  function LiveOf(live: Live, id: NamespacedName): Option<Service> {
    if id in live then Some(live[id]) else None
  }

  function LiveStep(live: Live, e: Event): Live {
    if e.ApplyEvent? then live
    else match Subject(e.previous, e.current)
         case None => live
         case Some(id) => if e.current.Some? then live[id := e.current.value] else live - {id}
  }

  function LiveAfter(es: seq<Event>): Live {
    if es == [] then map[] else LiveStep(LiveAfter(es[..|es| - 1]), Last(es))
  }

  /** The event's previous object is the last current one of the same service. */
  ghost predicate Continues(live: Live, e: Event) {
    e.ServiceEvent? ==>
      match Subject(e.previous, e.current)
      case None => true
      case Some(id) => e.previous == LiveOf(live, id)
  }

  ghost predicate Next(s: Proxy, e: Event, t: Proxy) {
    match e
    case ServiceEvent(previous, current) => t == s.(items := Accumulate(s.items, previous, current))
    case ApplyEvent(order) => IsOrder(s.items, order) && t == Proxy(map[], ApplyAll(s.m, s.items, order))
  }

  ghost predicate IsRun(es: seq<Event>, states: seq<Proxy>) {
    && |states| == |es| + 1 && states[0] == Proxy(map[], map[])
    && (forall i :: 0 <= i < |es| ==> Next(states[i], es[i], states[i + 1]))
    && (forall i :: 0 <= i < |es| ==> Continues(LiveAfter(es[..i]), es[i]))
  }

  ghost predicate WellKeyed(live: Live) {
    forall id :: id in live ==> live[id].id == id
  }

  /** What the map holds for a service: its state when the accumulated change began. */
  function Shown(items: Items, live: Live, id: NamespacedName): ServiceMap {
    Entries(if id in items then items[id].previous else ToServiceMap(LiveOf(live, id)))
  }

  /** The map shows each service as it was before its accumulated change, and the change ends in what
      is live now. */
  ghost predicate Inv(s: Proxy, live: Live) {
    && WellKeyed(live) && OwnKeys(s.items)
    && (forall id :: id in s.items ==> s.items[id].current == ToServiceMap(LiveOf(live, id)))
    && (forall port :: Lookup(s.m, port) == Lookup(Shown(s.items, live, port.service), port))
  }

  /** An event changes what is live, and what its accumulated change starts from and ends in, only for
      its own service. */
  lemma EventAt(items: Items, e: Event, live: Live, id: NamespacedName)
    requires e.ServiceEvent? && Continues(live, e)
    requires WellKeyed(live) && (id in items ==> items[id].current == ToServiceMap(LiveOf(live, id)))
    ensures var items', live' := Accumulate(items, e.previous, e.current), LiveStep(live, e);
            && Shown(items', live', id) == Shown(items, live, id)
            && (id in items' ==> items'[id].current == ToServiceMap(LiveOf(live', id)))
  {
    var live' := LiveStep(live, e);
    if Subject(e.previous, e.current).Some? {
      var subject := Subject(e.previous, e.current).value;
      if id == subject {
        assert LiveOf(live', id) == e.current;
      } else {
        assert LiveOf(live', id) == LiveOf(live, id);
      }
    }
  }

  lemma EventKeepsKeys(items: Items, e: Event, live: Live)
    requires WellKeyed(live) && OwnKeys(items) && e.ServiceEvent? && Continues(live, e)
    ensures WellKeyed(LiveStep(live, e)) && OwnKeys(Accumulate(items, e.previous, e.current))
  {
  }

  lemma EventKeepsInv(s: Proxy, e: Event, live: Live)
    requires Inv(s, live) && e.ServiceEvent? && Continues(live, e)
    ensures Inv(s.(items := Accumulate(s.items, e.previous, e.current)), LiveStep(live, e))
  {
    var items, live' := Accumulate(s.items, e.previous, e.current), LiveStep(live, e);
    EventKeepsKeys(s.items, e, live);
    forall id | id in items ensures items[id].current == ToServiceMap(LiveOf(live', id)) {
      EventAt(s.items, e, live, id);
    }
    forall port ensures Lookup(s.m, port) == Lookup(Shown(items, live', port.service), port) {
      EventAt(s.items, e, live, port.service);
    }
  }

  lemma ApplyShowsLive(s: Proxy, order: seq<NamespacedName>, live: Live, port: ServicePortName)
    requires Inv(s, live) && IsOrder(s.items, order)
    ensures Lookup(ApplyAll(s.m, s.items, order), port) ==
            Lookup(Entries(ToServiceMap(LiveOf(live, port.service))), port)
  {
    ApplyAllAt(s.m, s.items, order, port);
  }

  lemma {:induction false} RunInv(es: seq<Event>, states: seq<Proxy>)
    requires IsRun(es, states)
    ensures Inv(states[|es|], LiveAfter(es))
  {
    if es != [] {
      var n := |es| - 1;
      RunSplits(es, states);
      RunInv(es[..n], states[..|es|]);
      assert Next(states[n], es[n], states[n + 1]) && Continues(LiveAfter(es[..n]), es[n]);
      if es[n].ServiceEvent? {
        EventKeepsInv(states[n], es[n], LiveAfter(es[..n]));
      } else {
        forall port { ApplyShowsLive(states[n], es[n].order, LiveAfter(es[..n]), port); }
      }
    }
  }

  lemma RunSplits(es: seq<Event>, states: seq<Proxy>)
    requires IsRun(es, states) && es != []
    ensures IsRun(es[..|es| - 1], states[..|es|])
  {
    var n := |es| - 1;
    forall i | 0 <= i < n
      ensures Next(states[..|es|][i], es[..n][i], states[..|es|][i + 1])
              && Continues(LiveAfter(es[..n][..i]), es[..n][i])
    {
      assert es[..n][..i] == es[..i];
      assert Next(states[i], es[i], states[i + 1]);
    }
  }

  /** Right after an application the map is the union of the maps of the live services, including when
      changes cancelled out. */
  lemma ApplyShowsLiveServices(es: seq<Event>, states: seq<Proxy>, port: ServicePortName)
    requires IsRun(es, states) && es != [] && Last(es).ApplyEvent?
    ensures Lookup(states[|es|].m, port) == Lookup(Entries(ToServiceMap(LiveOf(LiveAfter(es), port.service))), port)
  {
    var n := |es| - 1;
    RunSplits(es, states);
    RunInv(es[..n], states[..|es|]);
    assert Next(states[n], es[n], states[n + 1]);
    ApplyShowsLive(states[n], es[n].order, LiveAfter(es[..n]), port);
  }

  /** The event is about the service of this name. */
  predicate About(e: Event, id: NamespacedName) {
    && e.ServiceEvent?
    && if e.current.Some? then e.current.value.id == id else e.previous.Some? && e.previous.value.id == id
  }

  /** Event `i` is the last one about the service. */
  ghost predicate LastAbout(es: seq<Event>, i: nat, id: NamespacedName) {
    i < |es| && About(es[i], id) && forall j :: i < j < |es| ==> !About(es[j], id)
  }

  lemma {:induction false} LastEventIsLive(es: seq<Event>, i: nat, id: NamespacedName)
    requires LastAbout(es, i, id)
    ensures LiveOf(LiveAfter(es), id) == es[i].current
  {
    var n := |es| - 1;
    if i < n {
      var fs := es[..n];
      assert forall j :: 0 <= j < n ==> fs[j] == es[j];
      LastEventIsLive(fs, i, id);
      assert !About(es[n], id);
    }
  }

  lemma {:induction false} UnseenIsNotLive(es: seq<Event>, id: NamespacedName)
    requires forall j :: 0 <= j < |es| ==> !About(es[j], id)
    ensures LiveOf(LiveAfter(es), id) == None
  {
    if es != [] {
      var n := |es| - 1;
      var fs := es[..n];
      assert forall j :: 0 <= j < n ==> fs[j] == es[j];
      UnseenIsNotLive(fs, id);
      assert !About(es[n], id);
    }
  }

  /** The service has a cluster IP, is not skipped, and has the port. */
  ghost predicate Serves(s: Option<Service>, port: ServicePortName) {
    s.Some? && !s.value.skip && s.value.clusterIP != "" && exists i: nat :: IsPort(s.value, i, port)
  }

  /** In terms of the events' own services: right after an application a port is in the map if and only if the
      last event about its service left a service that serves it, and its entry describes that port. */
  lemma ApplyShowsLastService(es: seq<Event>, states: seq<Proxy>, port: ServicePortName, i: nat)
    requires IsRun(es, states) && es != [] && Last(es).ApplyEvent? && LastAbout(es, i, port.service)
    ensures port in states[|es|].m <==> Serves(es[i].current, port)
    ensures port in states[|es|].m ==>
              exists k: nat :: IsPort(es[i].current.value, k, port)
                && Describes(states[|es|].m[port], es[i].current.value, es[i].current.value.ports[k])
  {
    ApplyShowsLiveServices(es, states, port);
    LastEventIsLive(es, i, port.service);
    MapServes(states[|es|].m, es[i].current, port);
  }

  lemma MapServes(m: ServiceMap, s: Option<Service>, port: ServicePortName)
    requires Lookup(m, port) == Lookup(Entries(ToServiceMap(s)), port)
    ensures port in m <==> Serves(s, port)
    ensures port in m ==> exists k: nat :: IsPort(s.value, k, port) && Describes(m[port], s.value, s.value.ports[k])
  {
    if s.Some? { PortsMapIs(s.value); }
  }

  /** A service that no event was about has no ports in the map. */
  lemma UnseenServiceIsAbsent(es: seq<Event>, states: seq<Proxy>, port: ServicePortName)
    requires IsRun(es, states) && es != [] && Last(es).ApplyEvent?
    requires forall j :: 0 <= j < |es| ==> !About(es[j], port.service)
    ensures port !in states[|es|].m
  {
    ApplyShowsLiveServices(es, states, port);
    UnseenIsNotLive(es, port.service);
  }

  // ------------------------------------------------------------------ pending changes

  /** The services as they were at the last application. */
  function AppliedAfter(es: seq<Event>): Live {
    if es == [] then map[] else if Last(es).ApplyEvent? then LiveAfter(es) else AppliedAfter(es[..|es| - 1])
  }

  /** A change is accumulated exactly for a service whose map differs between two times, and leads from one to
      the other. */
  ghost predicate PendingIs(items: Items, applied: Live, live: Live, id: NamespacedName) {
    var was, now := ToServiceMap(LiveOf(applied, id)), ToServiceMap(LiveOf(live, id));
    && (id in items <==> was != now)
    && (id in items ==> items[id] == Change(was, now))
  }

  lemma EventKeepsPending(items: Items, e: Event, applied: Live, live: Live, id: NamespacedName)
    requires e.ServiceEvent? && Continues(live, e) && PendingIs(items, applied, live, id)
    ensures PendingIs(Accumulate(items, e.previous, e.current), applied, LiveStep(live, e), id)
  {
    var subject := Subject(e.previous, e.current);
    if subject.Some? {
      var after := LiveStep(live, e);
      if id == subject.value {
        assert LiveOf(after, id) == e.current && LiveOf(live, id) == e.previous;
      } else {
        assert LiveOf(after, id) == LiveOf(live, id);
      }
    }
  }

  /** In every run a change is pending for a service exactly when what it shows now differs from what it showed
      at the last application: changes that cancel out leave nothing. */
  lemma {:induction false} PendingExactly(es: seq<Event>, states: seq<Proxy>, id: NamespacedName)
    requires IsRun(es, states)
    ensures PendingIs(states[|es|].items, AppliedAfter(es), LiveAfter(es), id)
  {
    if es != [] {
      var n := |es| - 1;
      RunSplits(es, states);
      PendingExactly(es[..n], states[..|es|], id);
      assert Next(states[n], es[n], states[n + 1]) && Continues(LiveAfter(es[..n]), es[n]);
      if es[n].ServiceEvent? {
        EventKeepsPending(states[n].items, es[n], AppliedAfter(es[..n]), LiveAfter(es[..n]), id);
      }
    }
  }

  // ------------------------------------------------------------------------- batching

  /** The watch events of a run, without the applications. */
  function WatchEvents(es: seq<Event>): seq<Event> {
    if es == [] then []
    else if Last(es).ApplyEvent? then WatchEvents(es[..|es| - 1])
    else WatchEvents(es[..|es| - 1]) + [Last(es)]
  }

  lemma {:induction false} LiveIgnoresApplications(es: seq<Event>)
    ensures LiveAfter(WatchEvents(es)) == LiveAfter(es)
  {
    if es != [] {
      LiveIgnoresApplications(es[..|es| - 1]);
      var ws := WatchEvents(es);
      if !Last(es).ApplyEvent? { assert ws[..|ws| - 1] == WatchEvents(es[..|es| - 1]); }
    }
  }

  /** Applying after every event, in any batches, or once at the end gives the same map. */
  lemma BatchingDoesNotShow(es: seq<Event>, states: seq<Proxy>, fs: seq<Event>, others: seq<Proxy>)
    requires IsRun(es, states) && es != [] && Last(es).ApplyEvent?
    requires IsRun(fs, others) && fs != [] && Last(fs).ApplyEvent?
    requires WatchEvents(es) == WatchEvents(fs)
    ensures states[|es|].m == others[|fs|].m
  {
    LiveIgnoresApplications(es);
    LiveIgnoresApplications(fs);
    forall port ensures Lookup(states[|es|].m, port) == Lookup(others[|fs|].m, port) {
      ApplyShowsLiveServices(es, states, port);
      ApplyShowsLiveServices(fs, others, port);
    }
    SameLookups(states[|es|].m, others[|fs|].m);
  }
}
