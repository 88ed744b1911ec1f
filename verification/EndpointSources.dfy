/** What the endpoints map shows after a sync, in terms of the slice events' own fields. */
module EndpointSources {
  import opened Wrappers
  import opened EndpointSlices
  import opened EndpointGroups
  import opened EndpointChanges
  import opened EndpointUpdates
  import opened EndpointRuns

  // ---------------------------------------------------- the map copies applied slices

  /** Every listed endpoint is one of an applied slice of its service. */
  ghost predicate Backed(node: Node, ts: Trackers, em: EndpointsMap) {
    forall port: ServicePortName ::
      port in em ==> ListSourced(node, port, em[port], TrackerOf(ts, port.service).applied)
  }

  lemma SyncKeepsBacked(node: Node, ts: Trackers, em: EndpointsMap, cs: seq<Change>)
    requires CheckedOut(node, ts, cs) && InStep(node, ts, em) && Backed(node, ts, em)
    ensures Backed(node, Commit(ts), ApplyAll(em, cs))
  {
    ChangesOwnTheirKeys(node, ts, cs);
    var after, committed := ApplyAll(em, cs), Commit(ts);
    forall port: ServicePortName | port in after
      ensures ListSourced(node, port, after[port], TrackerOf(committed, port.service).applied)
    {
      ApplyAllAt(em, cs, port);
      assert AgreesAt(em, port, AppliedFacts(node, ts, port.service));
      if HasChange(cs, port.service) {
        var i :| 0 <= i < |cs| && cs[i].svc == port.service;
        ChangeKeepsInStep(node, ts, em, cs[i], port);
        assert MapSourced(node, cs[i].current, Overlay(ts[port.service]));
      } else {
        assert port.service in ts ==> ts[port.service].pending == map[];
      }
    }
  }

  lemma NextKeepsBacked(node: Node, s: Proxy, e: Event, t: Proxy)
    requires InStep(node, s.trackers, s.em) && Backed(node, s.trackers, s.em) && Next(node, s, e, t)
    ensures Backed(node, t.trackers, t.em)
  {
    if e.SyncEvent? {
      SyncKeepsBacked(node, s.trackers, s.em, e.changes);
    } else {
      forall port: ServicePortName | port in t.em
        ensures ListSourced(node, port, t.em[port], TrackerOf(t.trackers, port.service).applied)
      {
        assert ListSourced(node, port, s.em[port], TrackerOf(s.trackers, port.service).applied);
        assert TrackerOf(t.trackers, port.service).applied == TrackerOf(s.trackers, port.service).applied;
      }
    }
  }

  lemma {:induction false} RunKeepsBacked(node: Node, es: seq<Event>, states: seq<Proxy>)
    requires IsRun(node, es, states)
    ensures Backed(node, states[|es|].trackers, states[|es|].em)
  {
    if es != [] {
      var n := |es| - 1;
      RunSplits(node, es, states);
      RunKeepsBacked(node, es[..n], states[..|es|]);
      RunInvariant(node, es[..n], states[..|es|]);
      NextKeepsBacked(node, states[n], es[n], states[n + 1]);
    }
  }

  // ------------------------------------------------------------------- standing slices

  /** A slice the proxy takes notice of: it has IP addresses, a namespace, a name and a service label. */
  predicate Noticed(s: Slice) {
    !s.addressType.FQDN? && s.namespace != "" && s.name != "" && s.service.Some? && s.service.value != ""
  }

  predicate SameSlice(a: Slice, b: Slice) {
    a.namespace == b.namespace && a.name == b.name && a.service == b.service
  }

  predicate Replaces(e: Event, s: Slice) {
    e.SliceEvent? && Noticed(e.slice) && SameSlice(e.slice, s)
  }

  /** Event `i` sent a slice that no later event changed or removed. */
  ghost predicate Stands(es: seq<Event>, i: nat) {
    && i < |es| && es[i].SliceEvent? && !es[i].remove && Noticed(es[i].slice)
    && forall j :: i < j < |es| ==> !Replaces(es[j], es[i].slice)
  }

  function KeyOf(s: Slice): (NamespacedName, string)
    requires Noticed(s)
  {
    (NamespacedName(s.namespace, s.service.value), s.name)
  }

  /** The live slices are the slices that stand. */
  lemma {:induction false} LiveSliceStands(es: seq<Event>, k: (NamespacedName, string)) returns (i: nat)
    requires k in LiveAfter(es)
    ensures Stands(es, i) && es[i].slice == LiveAfter(es)[k] && KeyOf(es[i].slice) == k
  {
    var n := |es| - 1;
    var fs, e := es[..n], es[n];
    if e.SliceEvent? && !Ignored(e.slice) && CacheKeys(e.slice).value == k {
      i := n;
    } else {
      i := LiveSliceStands(fs, k);
      assert fs[i] == es[i];
      forall j | i < j < |es| ensures !Replaces(es[j], es[i].slice) {
        assert j < n ==> es[j] == fs[j];
      }
    }
  }

  lemma {:induction false} StandingSliceIsLive(es: seq<Event>, i: nat)
    requires Stands(es, i)
    ensures KeyOf(es[i].slice) in LiveAfter(es) && LiveAfter(es)[KeyOf(es[i].slice)] == es[i].slice
  {
    var n := |es| - 1;
    if i < n {
      var fs := es[..n];
      assert fs[i] == es[i];
      forall j | i < j < |fs| ensures !Replaces(fs[j], fs[i].slice) {
        assert fs[j] == es[j];
      }
      StandingSliceIsLive(fs, i);
      assert !Replaces(es[n], es[i].slice);
    }
  }

  // -------------------------------------------------------------------- raw endpoints

  /** `p` is a named port of `port`'s name and protocol with a number, and `e` has an address of the family. */
  predicate Usable(node: Node, port: ServicePortName, p: EndpointPort, e: SliceEndpoint) {
    && p.name == Some(port.port) && p.protocol == port.protocol && p.port.Some? && p.port.value != 0
    && e.addresses != [] && node.isIPv6(e.addresses[0]) == node.ipv6
  }

  /** The first address, in brackets if it has a colon, and the port number. */
  function AddressAndPort(p: EndpointPort, e: SliceEndpoint): string
    requires p.port.Some? && e.addresses != []
  {
    (if ':' in e.addresses[0] then "[" + e.addresses[0] + "]" else e.addresses[0]) + ":" + Itoa(p.port.value)
  }

  predicate OnNode(node: Node, e: SliceEndpoint) {
    node.hostname != "" && e.nodeName == Some(node.hostname)
  }

  /** `ep` shows endpoint `e` of a slice behind its port `p`: an endpoint is ready and serving unless it says
      it is not, and not terminating unless it says it is. */
  ghost predicate IsCopyOf(node: Node, port: ServicePortName, ep: Endpoint, p: EndpointPort, e: SliceEndpoint) {
    && Usable(node, port, p, e) && ep.endpoint == AddressAndPort(p, e) && (ep.isLocal <==> OnNode(node, e))
    && (ep.ready <==> e.ready != Some(false)) && (ep.serving <==> e.serving != Some(false))
    && (ep.terminating <==> e.terminating == Some(true))
    && OrEmpty(ep.nodeName, e.nodeName) && OrEmpty(ep.zone, e.zone)
    && (ep.zoneHints.None? <==> e.hints == [])
    && (ep.zoneHints.Some? ==> forall z :: z in ep.zoneHints.value <==> z in e.hints)
  }

  /** The slice is one of the service of `port` and has the endpoint. */
  ghost predicate Has(node: Node, slice: Slice, port: ServicePortName, ep: Endpoint) {
    && slice.namespace == port.service.namespace && slice.service == Some(port.service.name)
    && exists p, e :: p in slice.ports && e in slice.endpoints && IsCopyOf(node, port, ep, p, e)
  }

  lemma CachedCopyIsCopy(node: Node, port: ServicePortName, ep: Endpoint, p: EndpointPort, e: SliceEndpoint)
    requires Shows(node, port, p, Convert(e), ep)
    ensures IsCopyOf(node, port, ep, p, e)
  {
  }

  lemma SourceHasEndpoint(node: Node, slice: Slice, info: SliceInfo, port: ServicePortName, ep: Endpoint)
    requires IsInfoOf(slice, false, info) && SourcedBy(node, port, ep, info)
    ensures exists p, e :: p in slice.ports && e in slice.endpoints && IsCopyOf(node, port, ep, p, e)
  {
    SameMembers(info.ports, slice.ports);
    SameMembers(info.endpoints, ConvertAll(slice.endpoints));
    var p, i :| p in info.ports && i in info.endpoints && Shows(node, port, p, i, ep);
    assert i in ConvertAll(slice.endpoints);
    var n :| 0 <= n < |slice.endpoints| && ConvertAll(slice.endpoints)[n] == i;
    CachedCopyIsCopy(node, port, ep, p, slice.endpoints[n]);
    assert slice.endpoints[n] in slice.endpoints;
  }

  /** After any sync of any run, every endpoint listed for a port is a copy, field by field, of an endpoint of a
      standing slice of its service. */
  lemma ListedEndpointStands(node: Node, es: seq<Event>, states: seq<Proxy>, port: ServicePortName, k: nat)
    returns (i: nat)
    requires IsRun(node, es, states) && es != [] && es[|es| - 1].SyncEvent?
    requires port in states[|es|].em && k < |states[|es|].em[port]|
    ensures Stands(es, i) && Has(node, es[i].slice, port, states[|es|].em[port][k])
  {
    RunInvariant(node, es, states);
    RunKeepsBacked(node, es, states);
    RunSplits(node, es, states);
    var s, live := states[|es|], LiveAfter(es);
    var t, ep := TrackerOf(s.trackers, port.service), s.em[port][k];
    assert t.pending == map[] && Overlay(t) == t.applied;
    assert TracksAt(t, live, port.service);
    assert ListSourced(node, port, s.em[port], t.applied);
    var name :| name in t.applied && SourcedBy(node, port, ep, t.applied[name]);
    SourceHasEndpoint(node, live[(port.service, name)], t.applied[name], port, ep);
    i := LiveSliceStands(es, (port.service, name));
  }

  lemma FactOfEndpoint(node: Node, port: ServicePortName, p: EndpointPort, e: SliceEndpoint)
    requires Usable(node, port, p, e)
    ensures UsablePort(p) && UsableEndpoint(node, Convert(e))
    ensures FactOf(node, port.service, p, Convert(e)) == Fact(port, AddressAndPort(p, e), OnNode(node, e))
  {
    var host, digits := e.addresses[0], Itoa(p.port.value);
    assert "[" + host + "]:" + digits == ("[" + host + "]") + ":" + digits;
  }

  lemma UsableIsSaid(node: Node, slice: Slice, port: ServicePortName, p: EndpointPort, e: SliceEndpoint)
    requires p in slice.ports && e in slice.endpoints && Usable(node, port, p, e)
    ensures Fact(port, AddressAndPort(p, e), OnNode(node, e)) in SliceFacts(node, port.service, slice)
  {
    var n :| 0 <= n < |slice.endpoints| && slice.endpoints[n] == e;
    var i := ConvertAll(slice.endpoints)[n];
    assert i in ConvertAll(slice.endpoints) && i == Convert(e);
    FactOfEndpoint(node, port, p, e);
  }

  /** One endpoint is listed with this string, and it is local if `local` is set. */
  ghost predicate ListsOnce(em: EndpointsMap, port: ServicePortName, s: string, local: bool) {
    && port in em
    && exists k :: 0 <= k < |em[port]| && em[port][k].endpoint == s && (local ==> em[port][k].isLocal)
                   && forall l :: 0 <= l < |em[port]| && em[port][l].endpoint == s ==> l == k
  }

  /** Conversely, every usable endpoint of every standing slice is listed once for its port, as local if this
      copy of it is on the proxy's node. */
  lemma StandingEndpointIsListed(node: Node, es: seq<Event>, states: seq<Proxy>, i: nat, port: ServicePortName,
                                 p: EndpointPort, e: SliceEndpoint)
    requires IsRun(node, es, states) && es != [] && es[|es| - 1].SyncEvent? && Stands(es, i)
    requires es[i].slice.namespace == port.service.namespace && es[i].slice.service == Some(port.service.name)
    requires p in es[i].slice.ports && e in es[i].slice.endpoints && Usable(node, port, p, e)
    ensures ListsOnce(states[|es|].em, port, AddressAndPort(p, e), OnNode(node, e))
  {
    SyncShowsLiveSlices(node, es, states);
    StandingSliceIsLive(es, i);
    UsableIsSaid(node, es[i].slice, port, p, e);
    var em, live, s := states[|es|].em, LiveAfter(es), AddressAndPort(p, e);
    var facts := LiveFacts(node, live, port.service);
    var key := KeyOf(es[i].slice);
    assert key in live && key.0 == port.service;
    assert Fact(port, s, OnNode(node, e)) in facts;
    assert AgreesAt(em, port, facts);
    FactIsListedOnce(em, facts, Fact(port, s, OnNode(node, e)));
  }

  lemma FactIsListedOnce(em: EndpointsMap, facts: set<Fact>, f: Fact)
    requires AgreesAt(em, f.port, facts) && f in facts
    ensures ListsOnce(em, f.port, f.endpoint, f.isLocal)
  {
    var port, s := f.port, f.endpoint;
    assert f == Fact(port, s, f.isLocal) && Said(facts, port, s);
    assert s in Strings(em[port]);
    var k :| 0 <= k < |em[port]| && Strings(em[port])[k] == s;
    StrictlySortedIsDistinct(Strings(em[port]));
    forall l | 0 <= l < |em[port]| && em[port][l].endpoint == s ensures l == k {
      assert Strings(em[port])[l] == Strings(em[port])[k];
    }
  }
}
