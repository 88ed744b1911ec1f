/** What a sync reports as stale, in terms of the slices that stood at the sync before and stand now. */
module EndpointReports {
  import opened Wrappers
  import opened EndpointSlices
  import opened EndpointGroups
  import opened EndpointUpdates
  import opened EndpointRuns
  import opened EndpointSources

  /** The slice is one of the service of `port` and says, by port `p` and endpoint `e`, that it has an endpoint
      with this string and locality. */
  ghost predicate Says(node: Node, slice: Slice, p: EndpointPort, e: SliceEndpoint, f: Fact) {
    && slice.namespace == f.port.service.namespace && slice.service == Some(f.port.service.name)
    && p in slice.ports && e in slice.endpoints && Usable(node, f.port, p, e)
    && AddressAndPort(p, e) == f.endpoint && OnNode(node, e) == f.isLocal
  }

  /** Some standing slice says so. */
  ghost predicate Stated(node: Node, es: seq<Event>, f: Fact) {
    exists i: nat, p, e :: Stands(es, i) && Says(node, es[i].slice, p, e, f)
  }

  lemma StatedIsLive(node: Node, es: seq<Event>, f: Fact)
    requires Stated(node, es, f)
    ensures f in LiveFacts(node, LiveAfter(es), f.port.service)
  {
    var i: nat, p, e :| Stands(es, i) && Says(node, es[i].slice, p, e, f);
    StandingSliceIsLive(es, i);
    UsableIsSaid(node, es[i].slice, f.port, p, e);
    var key := KeyOf(es[i].slice);
    assert key in LiveAfter(es) && key.0 == f.port.service;
  }

  lemma UsableBoth(node: Node, svc: NamespacedName, p: EndpointPort, e: SliceEndpoint, f: Fact)
    requires UsablePort(p) && UsableEndpoint(node, Convert(e)) && FactOf(node, svc, p, Convert(e)) == f
    ensures Usable(node, f.port, p, e)
  {
  }

  lemma FactIsSaid(node: Node, slice: Slice, f: Fact) returns (p: EndpointPort, e: SliceEndpoint)
    requires slice.namespace == f.port.service.namespace && slice.service == Some(f.port.service.name)
    requires f in SliceFacts(node, f.port.service, slice)
    ensures Says(node, slice, p, e, f)
  {
    var infos := ConvertAll(slice.endpoints);
    var q, i :| q in slice.ports && i in infos && UsablePort(q) && UsableEndpoint(node, i)
                && FactOf(node, f.port.service, q, i) == f;
    var n :| 0 <= n < |infos| && infos[n] == i;
    p, e := q, slice.endpoints[n];
    assert i == Convert(e) && e in slice.endpoints;
    UsableBoth(node, f.port.service, p, e, f);
    FactOfEndpoint(node, f.port, p, e);
  }

  lemma LiveIsStated(node: Node, es: seq<Event>, f: Fact)
    requires f in LiveFacts(node, LiveAfter(es), f.port.service)
    ensures Stated(node, es, f)
  {
    var live := LiveAfter(es);
    var k :| k in live && k.0 == f.port.service && f in SliceFacts(node, f.port.service, live[k]);
    var i := LiveSliceStands(es, k);
    var p, e := FactIsSaid(node, live[k], f);
    assert Stands(es, i) && Says(node, es[i].slice, p, e, f);
  }

  /** Some standing copy of the endpoint exists, and `isLocal` says whether one of them is on the node. */
  ghost predicate Shown(node: Node, es: seq<Event>, port: ServicePortName, s: string, isLocal: bool) {
    && (Stated(node, es, Fact(port, s, true)) || Stated(node, es, Fact(port, s, false)))
    && (isLocal <==> Stated(node, es, Fact(port, s, true)))
  }

  lemma ListedAsSaid(em: EndpointsMap, port: ServicePortName, facts: set<Fact>, s: string, isLocal: bool)
    requires AgreesAt(em, port, facts)
    ensures Listed(em, port, s, isLocal) <==> Said(facts, port, s) && (isLocal <==> Fact(port, s, true) in facts)
  {
    if port in em {
      var eps := em[port];
      if Listed(em, port, s, isLocal) {
        var k :| 0 <= k < |eps| && Shape(eps)[k] == (s, isLocal);
        assert Strings(eps)[k] == s && s in Strings(eps);
      }
      if Said(facts, port, s) {
        assert s in Strings(eps);
        var k :| 0 <= k < |eps| && Strings(eps)[k] == s;
        assert Shape(eps)[k] == (s, eps[k].isLocal) && Shape(eps)[k] in Shape(eps);
      }
    }
  }

  /** After a sync an endpoint is listed with a locality if and only if the standing slices show it so. */
  lemma ListedExactly(node: Node, es: seq<Event>, states: seq<Proxy>, port: ServicePortName, s: string, isLocal: bool)
    requires IsRun(node, es, states) && (es == [] || es[|es| - 1].SyncEvent?)
    ensures Listed(states[|es|].em, port, s, isLocal) <==> Shown(node, es, port, s, isLocal)
  {
    if es != [] {
      SyncShowsLiveSlices(node, es, states);
      var facts := LiveFacts(node, LiveAfter(es), port.service);
      assert AgreesAt(states[|es|].em, port, facts);
      ListedAsSaid(states[|es|].em, port, facts, s, isLocal);
      StatedExactly(node, es, Fact(port, s, true));
      StatedExactly(node, es, Fact(port, s, false));
    }
  }

  lemma StatedExactly(node: Node, es: seq<Event>, f: Fact)
    ensures Stated(node, es, f) <==> f in LiveFacts(node, LiveAfter(es), f.port.service)
  {
    if Stated(node, es, f) { StatedIsLive(node, es, f); }
    if f in LiveFacts(node, LiveAfter(es), f.port.service) { LiveIsStated(node, es, f); }
  }

  // --------------------------------------------------------------- from one sync to the next

  /** Event `|es| - 1` is a sync, and the one before it, if any, is event `m - 1`. */
  ghost predicate NextSync(es: seq<Event>, m: nat) {
    && m < |es| && es[|es| - 1].SyncEvent? && (m == 0 || es[m - 1].SyncEvent?)
    && forall j :: m <= j < |es| - 1 ==> !es[j].SyncEvent?
  }

  lemma RunPrefix(node: Node, es: seq<Event>, states: seq<Proxy>, m: nat)
    requires IsRun(node, es, states) && m <= |es|
    ensures IsRun(node, es[..m], states[..m + 1])
  {
    forall i | 0 <= i < m ensures Next(node, states[..m + 1][i], es[..m][i], states[..m + 1][i + 1]) {
      assert Next(node, states[i], es[i], states[i + 1]);
    }
  }

  /** Between syncs the map does not change. */
  lemma {:induction false} MapWaitsForSync(node: Node, es: seq<Event>, states: seq<Proxy>, m: nat, k: nat)
    requires IsRun(node, es, states) && m <= k <= |es| && forall j :: m <= j < k ==> !es[j].SyncEvent?
    ensures states[k].em == states[m].em
  {
    if m < k {
      MapWaitsForSync(node, es, states, m, k - 1);
      assert Next(node, states[k - 1], es[k - 1], states[k]);
    }
  }

  lemma ListedBefore(node: Node, es: seq<Event>, states: seq<Proxy>, m: nat, port: ServicePortName, s: string,
                     isLocal: bool)
    requires IsRun(node, es, states) && NextSync(es, m)
    ensures Listed(states[|es| - 1].em, port, s, isLocal) <==> Shown(node, es[..m], port, s, isLocal)
  {
    MapWaitsForSync(node, es, states, m, |es| - 1);
    RunPrefix(node, es, states, m);
    ListedExactly(node, es[..m], states[..m + 1], port, s, isLocal);
  }

  /** What a sync must report as stale: a UDP endpoint that the slices standing at the sync before show with a
      locality with which those standing now do not. */
  lemma StaleExactly(node: Node, es: seq<Event>, states: seq<Proxy>, m: nat, se: ServiceEndpoint)
    requires IsRun(node, es, states) && NextSync(es, m)
    ensures Stale(states[|es| - 1].em, states[|es|].em, se) <==>
            && se.port.protocol == UDP
            && exists isLocal :: Shown(node, es[..m], se.port, se.endpoint, isLocal)
                                 && !Shown(node, es, se.port, se.endpoint, isLocal)
  {
    forall isLocal: bool
      ensures Listed(states[|es| - 1].em, se.port, se.endpoint, isLocal) <==>
              Shown(node, es[..m], se.port, se.endpoint, isLocal)
      ensures Listed(states[|es|].em, se.port, se.endpoint, isLocal) <==>
              Shown(node, es, se.port, se.endpoint, isLocal)
    {
      ListedBefore(node, es, states, m, se.port, se.endpoint, isLocal);
      ListedExactly(node, es, states, se.port, se.endpoint, isLocal);
    }
  }

  ghost predicate Served(node: Node, es: seq<Event>, port: ServicePortName) {
    exists f: Fact :: f.port == port && Stated(node, es, f)
  }

  lemma ServedExactly(node: Node, es: seq<Event>, states: seq<Proxy>, port: ServicePortName)
    requires IsRun(node, es, states) && (es == [] || es[|es| - 1].SyncEvent?)
    ensures HasEndpoints(states[|es|].em, port) <==> Served(node, es, port)
  {
    var em := states[|es|].em;
    if HasEndpoints(em, port) {
      var ep := em[port][0];
      assert Shape(em[port])[0] == (ep.endpoint, ep.isLocal) && Shape(em[port])[0] in Shape(em[port]);
      ListedExactly(node, es, states, port, ep.endpoint, ep.isLocal);
      assert Stated(node, es, Fact(port, ep.endpoint, true)) || Stated(node, es, Fact(port, ep.endpoint, false));
    }
    if Served(node, es, port) {
      var f: Fact :| f.port == port && Stated(node, es, f);
      var isLocal := Stated(node, es, Fact(port, f.endpoint, true));
      assert f == Fact(port, f.endpoint, f.isLocal) && Shown(node, es, port, f.endpoint, isLocal);
      ListedExactly(node, es, states, port, f.endpoint, isLocal);
      assert |Shape(em[port])| == |em[port]|;
    }
  }

  lemma ServedBefore(node: Node, es: seq<Event>, states: seq<Proxy>, m: nat, port: ServicePortName)
    requires IsRun(node, es, states) && NextSync(es, m)
    ensures HasEndpoints(states[|es| - 1].em, port) <==> Served(node, es[..m], port)
  {
    MapWaitsForSync(node, es, states, m, |es| - 1);
    RunPrefix(node, es, states, m);
    ServedExactly(node, es[..m], states[..m + 1], port);
  }

  /** And what it must report as newly served: a UDP port for which no slice had an endpoint at the sync before
      and one has now. */
  lemma NewlyServedExactly(node: Node, es: seq<Event>, states: seq<Proxy>, m: nat, port: ServicePortName)
    requires IsRun(node, es, states) && NextSync(es, m)
    ensures NewlyServed(states[|es| - 1].em, states[|es|].em, port) <==>
            port.protocol == UDP && Served(node, es, port) && !Served(node, es[..m], port)
  {
    ServedBefore(node, es, states, m, port);
    ServedExactly(node, es, states, port);
  }
}
