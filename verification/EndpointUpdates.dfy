/** Applying checked-out changes to the endpoints map, and the stale connections that result. */
module EndpointUpdates {
  import opened Order
  import opened EndpointSlices
  import opened EndpointGroups
  import opened EndpointChanges

  /** `ServiceEndpoint`. */
  datatype ServiceEndpoint = ServiceEndpoint(endpoint: string, port: ServicePortName)

  /** The map lists this endpoint of `port` with this locality. */
  ghost predicate Listed(em: EndpointsMap, port: ServicePortName, s: string, isLocal: bool) {
    port in em && (s, isLocal) in Shape(em[port])
  }

  /** A UDP endpoint that is listed before with some locality and not after. */
  ghost predicate Stale(before: EndpointsMap, after: EndpointsMap, se: ServiceEndpoint) {
    && se.port.protocol.UDP?
    && exists isLocal ::
         Listed(before, se.port, se.endpoint, isLocal) && !Listed(after, se.port, se.endpoint, isLocal)
  }

  predicate HasEndpoints(em: EndpointsMap, port: ServicePortName) {
    port in em && em[port] != []
  }

  /** A UDP service port that went from no endpoints to some. */
  predicate NewlyServed(before: EndpointsMap, after: EndpointsMap, port: ServicePortName) {
    port.protocol.UDP? && HasEndpoints(after, port) && !HasEndpoints(before, port)
  }

  ghost predicate OnceEach(em: EndpointsMap) {
    forall port :: port in em ==> Distinct(Strings(em[port]))
  }

  // ----------------------------------------------------- detectStaleConnections

  method ContainsEqual(eps: seq<Endpoint>, ep: Endpoint) returns (found: bool)
    ensures found <==> (ep.endpoint, ep.isLocal) in Shape(eps)
  {
    var i := 0;
    while i < |eps|
      invariant 0 <= i <= |eps|
      invariant forall j :: 0 <= j < i ==> Shape(eps)[j] != (ep.endpoint, ep.isLocal)
    {
      if eps[i].endpoint == ep.endpoint && eps[i].isLocal == ep.isLocal {
        assert Shape(eps)[i] == (ep.endpoint, ep.isLocal);
        return true;
      }
      i := i + 1;
    }
    return false;
  }

  /** One of the first `n` endpoints has this string and is gone or changed its locality. */
  ghost predicate Gone(old_: seq<Endpoint>, new_: seq<Endpoint>, n: nat, s: string) {
    exists j :: 0 <= j < n && j < |old_| && old_[j].endpoint == s && Shape(old_)[j] !in Shape(new_)
  }

  lemma GoneSnoc(old_: seq<Endpoint>, new_: seq<Endpoint>, i: nat, s: string)
    requires i < |old_|
    ensures Gone(old_, new_, i + 1, s) <==>
            Gone(old_, new_, i, s) || (old_[i].endpoint == s && Shape(old_)[i] !in Shape(new_))
  {
  }

  /** The endpoints of one port that are gone or changed locality. */
  method StaleEndpoints(port: ServicePortName, old_: seq<Endpoint>, new_: seq<Endpoint>)
    returns (r: seq<ServiceEndpoint>)
    ensures forall se :: se in r <==> se.port == port && Gone(old_, new_, |old_|, se.endpoint)
    ensures Distinct(Strings(old_)) ==> Distinct(r)
  {
    r := [];
    var i := 0;
    while i < |old_|
      invariant 0 <= i <= |old_|
      invariant forall se :: se in r <==> se.port == port && Gone(old_, new_, i, se.endpoint)
      invariant Distinct(Strings(old_)) ==> Distinct(r)
    {
      var found := ContainsEqual(new_, old_[i]);
      forall se: ServiceEndpoint { GoneSnoc(old_, new_, i, se.endpoint); }
      if !found {
        var se := ServiceEndpoint(old_[i].endpoint, port);
        if Distinct(Strings(old_)) {
          NotGoneBefore(old_, new_, i);
          assert se !in r;
        }
        r := r + [se];
      }
      i := i + 1;
    }
  }

  lemma NotGoneBefore(old_: seq<Endpoint>, new_: seq<Endpoint>, i: nat)
    requires i < |old_| && Distinct(Strings(old_))
    ensures !Gone(old_, new_, i, old_[i].endpoint)
  {
    forall j | 0 <= j < i ensures old_[j].endpoint != old_[i].endpoint {
      assert Strings(old_)[j] != Strings(old_)[i];
    }
  }

  function EndpointsOf(em: EndpointsMap, port: ServicePortName): seq<Endpoint> {
    if port in em then em[port] else []
  }

  lemma StaleAtPort(before: EndpointsMap, after: EndpointsMap, se: ServiceEndpoint)
    requires se.port in before && se.port.protocol.UDP?
    ensures var a, b := before[se.port], EndpointsOf(after, se.port);
            Stale(before, after, se) <==> Gone(a, b, |a|, se.endpoint)
  {
    var a, b := before[se.port], EndpointsOf(after, se.port);
    if Stale(before, after, se) {
      var l :| Listed(before, se.port, se.endpoint, l) && !Listed(after, se.port, se.endpoint, l);
      var i :| 0 <= i < |a| && Shape(a)[i] == (se.endpoint, l);
    }
    if i :| 0 <= i < |a| && a[i].endpoint == se.endpoint && Shape(a)[i] !in Shape(b) {
      assert Listed(before, se.port, se.endpoint, a[i].isLocal) && !Listed(after, se.port, se.endpoint, a[i].isLocal);
    }
  }

  /** The stale endpoints of one change, in any order of service ports. */
  method StaleEndpointsOf(before: EndpointsMap, after: EndpointsMap) returns (stale: seq<ServiceEndpoint>)
    ensures forall se :: se in stale <==> Stale(before, after, se)
    ensures OnceEach(before) ==> Distinct(stale)
  {
    stale := [];
    var rest := before.Keys;
    while rest != {}
      invariant rest <= before.Keys
      invariant forall se :: se in stale <==> se.port in before && se.port !in rest && Stale(before, after, se)
      invariant OnceEach(before) ==> Distinct(stale)
      decreases rest
    {
      var port :| port in rest;
      if port.protocol.UDP? {
        var more := StaleEndpoints(port, before[port], EndpointsOf(after, port));
        forall se: ServiceEndpoint | se.port == port ensures se in more <==> Stale(before, after, se) {
          StaleAtPort(before, after, se);
        }
        DistinctAppend(stale, more);
        stale := stale + more;
      }
      rest := rest - {port};
    }
  }

  lemma DistinctAppend<T>(a: seq<T>, b: seq<T>)
    requires forall x :: x in a ==> x !in b
    ensures Distinct(a) && Distinct(b) ==> Distinct(a + b)
  {
    if Distinct(a) && Distinct(b) {
      forall i, j | 0 <= i < j < |a + b| ensures (a + b)[i] != (a + b)[j] {
        if i < |a| <= j { assert a[i] !in b; }
      }
    }
  }

  /** The service ports of one change that gained their first endpoint. */
  method StaleNamesOf(before: EndpointsMap, after: EndpointsMap) returns (names: seq<ServicePortName>)
    ensures forall port :: port in names <==> NewlyServed(before, after, port)
    ensures Distinct(names)
  {
    names := [];
    var rest := after.Keys;
    while rest != {}
      invariant rest <= after.Keys
      invariant forall port :: port in names <==> port !in rest && NewlyServed(before, after, port)
      invariant Distinct(names)
      decreases rest
    {
      var port :| port in rest;
      if port.protocol.UDP? && |after[port]| > 0 && |EndpointsOf(before, port)| == 0 {
        names := names + [port];
      }
      rest := rest - {port};
    }
  }

  // --------------------------------------------------------------------- apply

  ghost predicate SameEntry(a: EndpointsMap, b: EndpointsMap, port: ServicePortName) {
    (port in a <==> port in b) && (port in a ==> a[port] == b[port])
  }

  /** A change speaks only of its own service. */
  ghost predicate OwnKeys(c: Change) {
    forall port :: port in c.previous || port in c.current ==> port.service == c.svc
  }

  lemma AgreeingMapsStayInService(node: Node, svc: NamespacedName, infos: Infos, em: EndpointsMap)
    requires Agrees(em, AllFacts(node, svc, infos))
    ensures forall port :: port in em ==> port.service == svc
  {
    forall port | port in em ensures port.service == svc {
      assert AgreesAt(em, port, AllFacts(node, svc, infos));
      assert Strings(em[port])[0] in Strings(em[port]);
      assert Said(AllFacts(node, svc, infos), port, em[port][0].endpoint);
    }
  }

  /** Applying changes of distinct services in any order changes each service port at most once. */
  lemma {:induction false} ApplyAllAt(em: EndpointsMap, cs: seq<Change>, port: ServicePortName)
    requires DistinctServices(cs) && forall i :: 0 <= i < |cs| ==> OwnKeys(cs[i])
    ensures !HasChange(cs, port.service) ==> SameEntry(em, ApplyAll(em, cs), port)
    ensures forall i :: 0 <= i < |cs| && cs[i].svc == port.service ==>
            SameEntry(ApplyChange(em, cs[i]), ApplyAll(em, cs), port)
  {
    if cs != [] {
      var ds, c := cs[..|cs| - 1], cs[|cs| - 1];
      ApplyAllAt(em, ds, port);
      if c.svc == port.service {
        assert !HasChange(ds, port.service);
      } else {
        assert SameEntry(ApplyAll(em, ds), ApplyAll(em, cs), port);
        if HasChange(ds, port.service) {
          var i :| 0 <= i < |ds| && ds[i].svc == port.service;
          assert cs[i] == ds[i];
        }
        forall i | 0 <= i < |cs| && cs[i].svc == port.service
          ensures SameEntry(ApplyChange(em, cs[i]), ApplyAll(em, cs), port)
        {
          assert ds[i] == cs[i];
        }
      }
    }
  }

  ghost function AppliedFacts(node: Node, ts: Trackers, svc: NamespacedName): set<Fact> {
    AllFacts(node, svc, TrackerOf(ts, svc).applied)
  }

  /** The map shows, for every service port, what the applied slices of its service say. */
  ghost predicate InStep(node: Node, ts: Trackers, em: EndpointsMap) {
    forall port: ServicePortName :: AgreesAt(em, port, AppliedFacts(node, ts, port.service))
  }

  lemma ChangeKeepsInStep(node: Node, ts: Trackers, em: EndpointsMap, c: Change, port: ServicePortName)
    requires c.svc in ts && IsChangeOf(node, ts[c.svc], c) && port.service == c.svc
    requires AgreesAt(em, port, AppliedFacts(node, ts, port.service))
    ensures AgreesAt(ApplyChange(em, c), port, AllFacts(node, c.svc, Overlay(ts[c.svc])))
    ensures SameEntry(ApplyChange(em, c), c.current, port)
    ensures port in em <==> port in c.previous
    ensures port in em ==> Shape(em[port]) == Shape(c.previous[port])
  {
    SameAt(em, c.previous, port, AppliedFacts(node, ts, port.service));
    assert AgreesAt(c.current, port, AllFacts(node, c.svc, Overlay(ts[c.svc])));
  }

  /** Checking out and applying keeps the map in step with the applied slices. */
  lemma SyncKeepsInStep(node: Node, ts: Trackers, em: EndpointsMap, cs: seq<Change>)
    requires CheckedOut(node, ts, cs) && InStep(node, ts, em)
    ensures InStep(node, Commit(ts), ApplyAll(em, cs))
  {
    ChangesOwnTheirKeys(node, ts, cs);
    forall port: ServicePortName
      ensures AgreesAt(ApplyAll(em, cs), port, AppliedFacts(node, Commit(ts), port.service))
    {
      ApplyAllAt(em, cs, port);
      assert AgreesAt(em, port, AppliedFacts(node, ts, port.service));
      if HasChange(cs, port.service) {
        var i :| 0 <= i < |cs| && cs[i].svc == port.service;
        ChangeKeepsInStep(node, ts, em, cs[i], port);
      } else {
        assert port.service in ts ==> ts[port.service].pending == map[];
      }
    }
  }

  lemma ChangesOwnTheirKeys(node: Node, ts: Trackers, cs: seq<Change>)
    requires CheckedOut(node, ts, cs)
    ensures forall i :: 0 <= i < |cs| ==> OwnKeys(cs[i])
    ensures forall i :: 0 <= i < |cs| ==> OnceEach(cs[i].previous)
  {
    forall i | 0 <= i < |cs| ensures OwnKeys(cs[i]) && OnceEach(cs[i].previous) {
      var c := cs[i];
      AgreeingMapsStayInService(node, c.svc, ts[c.svc].applied, c.previous);
      AgreeingMapsStayInService(node, c.svc, Overlay(ts[c.svc]), c.current);
      forall port | port in c.previous ensures Distinct(Strings(c.previous[port])) {
        assert AgreesAt(c.previous, port, AllFacts(node, c.svc, ts[c.svc].applied));
        StrictlySortedIsDistinct(Strings(c.previous[port]));
      }
    }
  }

  lemma StrictlySortedIsDistinct(ss: seq<string>)
    requires StrictlySorted(ss)
    ensures Distinct(ss)
  {
    forall i, j | 0 <= i < j < |ss| ensures ss[i] != ss[j] {
      StrLessIrreflexive(ss[i]);
    }
  }

  // -------------------------------------------------------- staleness of a sync

  ghost predicate StaleInSome(cs: seq<Change>, se: ServiceEndpoint) {
    exists k :: 0 <= k < |cs| && Stale(cs[k].previous, cs[k].current, se)
  }

  ghost predicate ServedInSome(cs: seq<Change>, port: ServicePortName) {
    exists k :: 0 <= k < |cs| && NewlyServed(cs[k].previous, cs[k].current, port)
  }

  lemma ListedByShape(a: EndpointsMap, b: EndpointsMap, port: ServicePortName)
    requires port in a <==> port in b
    requires port in a ==> Shape(a[port]) == Shape(b[port])
    ensures forall s, l :: Listed(a, port, s, l) <==> Listed(b, port, s, l)
    ensures HasEndpoints(a, port) <==> HasEndpoints(b, port)
  {
    if port in a { assert |Shape(a[port])| == |a[port]| && |Shape(b[port])| == |b[port]|; }
  }

  /** A change that reports a service port is a change of its service. */
  lemma ReportsItsOwnService(c: Change, se: ServiceEndpoint)
    requires OwnKeys(c)
    requires Stale(c.previous, c.current, se) || NewlyServed(c.previous, c.current, se.port)
    ensures c.svc == se.port.service
  {
    assert se.port in c.previous || se.port in c.current;
  }

  lemma OnlyItsServiceReports(cs: seq<Change>, se: ServiceEndpoint)
    requires forall k :: 0 <= k < |cs| ==> OwnKeys(cs[k])
    requires !HasChange(cs, se.port.service)
    ensures !StaleInSome(cs, se) && !ServedInSome(cs, se.port)
  {
    forall k | 0 <= k < |cs|
      ensures !Stale(cs[k].previous, cs[k].current, se) && !NewlyServed(cs[k].previous, cs[k].current, se.port)
    {
      if Stale(cs[k].previous, cs[k].current, se) || NewlyServed(cs[k].previous, cs[k].current, se.port) {
        ReportsItsOwnService(cs[k], se);
      }
    }
  }

  lemma OneChangeReports(cs: seq<Change>, i: nat, se: ServiceEndpoint)
    requires i < |cs| && DistinctServices(cs) && cs[i].svc == se.port.service
    requires forall k :: 0 <= k < |cs| ==> OwnKeys(cs[k])
    ensures StaleInSome(cs, se) <==> Stale(cs[i].previous, cs[i].current, se)
    ensures ServedInSome(cs, se.port) <==> NewlyServed(cs[i].previous, cs[i].current, se.port)
  {
    forall k | 0 <= k < |cs|
        && (Stale(cs[k].previous, cs[k].current, se) || NewlyServed(cs[k].previous, cs[k].current, se.port))
      ensures k == i
    {
      ReportsItsOwnService(cs[k], se);
    }
  }

  /** What the changes report about a service port is what differs between the map before and after. */
  lemma StaleMeansGone(node: Node, ts: Trackers, em: EndpointsMap, cs: seq<Change>, se: ServiceEndpoint)
    requires CheckedOut(node, ts, cs) && InStep(node, ts, em)
    ensures StaleInSome(cs, se) <==> Stale(em, ApplyAll(em, cs), se)
    ensures ServedInSome(cs, se.port) <==> NewlyServed(em, ApplyAll(em, cs), se.port)
  {
    var port := se.port;
    ChangesOwnTheirKeys(node, ts, cs);
    ApplyAllAt(em, cs, port);
    assert AgreesAt(em, port, AppliedFacts(node, ts, port.service));
    if HasChange(cs, port.service) {
      var i :| 0 <= i < |cs| && cs[i].svc == port.service;
      OneChangeReports(cs, i, se);
      StaleInChange(node, ts, em, ApplyAll(em, cs), cs[i], se);
    } else {
      OnlyItsServiceReports(cs, se);
      ListedByShape(em, ApplyAll(em, cs), port);
    }
  }

  lemma StaleInChange(node: Node, ts: Trackers, em: EndpointsMap, after: EndpointsMap, c: Change, se: ServiceEndpoint)
    requires c.svc in ts && IsChangeOf(node, ts[c.svc], c) && se.port.service == c.svc
    requires AgreesAt(em, se.port, AppliedFacts(node, ts, c.svc))
    requires SameEntry(ApplyChange(em, c), after, se.port)
    ensures Stale(c.previous, c.current, se) <==> Stale(em, after, se)
    ensures NewlyServed(c.previous, c.current, se.port) <==> NewlyServed(em, after, se.port)
  {
    ChangeKeepsInStep(node, ts, em, c, se.port);
    ListedByShape(em, c.previous, se.port);
    ListedByShape(after, c.current, se.port);
  }

  lemma StaleSnoc(cs: seq<Change>, c: Change, se: ServiceEndpoint)
    ensures StaleInSome(cs + [c], se) <==> StaleInSome(cs, se) || Stale(c.previous, c.current, se)
    ensures ServedInSome(cs + [c], se.port) <==>
            ServedInSome(cs, se.port) || NewlyServed(c.previous, c.current, se.port)
  {
    var ds := cs + [c];
    assert ds[|cs|] == c;
    assert forall k :: 0 <= k < |cs| ==> ds[k] == cs[k];
  }

  /** `EndpointsMap`, changed in place. */
  class EndpointsTable {
    var em: EndpointsMap

    constructor ()
      ensures em == map[]
    {
      em := map[];
    }

    method Unmerge(other: EndpointsMap)
      modifies this
      ensures em == old(em) - other.Keys
    {
      var rest := other.Keys;
      while rest != {}
        invariant rest <= other.Keys && em == old(em) - (other.Keys - rest)
        decreases rest
      {
        var port :| port in rest;
        em := em - {port};
        rest := rest - {port};
      }
    }

    method Merge(other: EndpointsMap)
      modifies this
      ensures em == old(em) + other
    {
      var rest := other.Keys;
      while rest != {}
        invariant rest <= other.Keys
        invariant em == old(em) + (map port | port in other && port !in rest :: other[port])
        decreases rest
      {
        var port :| port in rest;
        em := em[port := other[port]];
        rest := rest - {port};
      }
    }

    /** `Update`: applies every pending change and reports stale UDP endpoints and service ports. */
    method Update(cache: EndpointSliceCache)
      returns (stale: seq<ServiceEndpoint>, names: seq<ServicePortName>, ghost checkedOut: seq<Change>)
      modifies this, cache
      ensures CheckedOut(cache.node, old(cache.trackers), checkedOut)
      ensures cache.trackers == Commit(old(cache.trackers)) && em == ApplyAll(old(em), checkedOut)
      ensures Reports(checkedOut, stale, names)
      ensures old(InStep(cache.node, cache.trackers, em)) ==>
                && InStep(cache.node, cache.trackers, em)
                && (forall se :: se in stale <==> Stale(old(em), em, se))
                && (forall port :: port in names <==> NewlyServed(old(em), em, port))
    {
      ghost var ts := cache.trackers;
      var changes := cache.CheckoutChanges();
      checkedOut := changes;
      stale, names := Apply(cache.node, ts, changes);
      if InStep(cache.node, ts, old(em)) {
        SyncKeepsInStep(cache.node, ts, old(em), changes);
        forall se ensures se in stale <==> Stale(old(em), em, se) {
          StaleMeansGone(cache.node, ts, old(em), changes, se);
        }
        forall port ensures port in names <==> NewlyServed(old(em), em, port) {
          StaleMeansGone(cache.node, ts, old(em), changes, ServiceEndpoint("", port));
        }
      }
    }

    method ApplyOne(c: Change)
      modifies this
      ensures em == ApplyChange(old(em), c)
    {
      Unmerge(c.previous);
      Merge(c.current);
    }

    method Apply(ghost node: Node, ghost ts: Trackers, changes: seq<Change>)
      returns (stale: seq<ServiceEndpoint>, names: seq<ServicePortName>)
      requires CheckedOut(node, ts, changes)
      modifies this
      ensures em == ApplyAll(old(em), changes)
      ensures Reports(changes, stale, names)
    {
      ChangesOwnTheirKeys(node, ts, changes);
      stale, names := [], [];
      var i := 0;
      assert changes[..0] == [];
      while i < |changes|
        invariant 0 <= i <= |changes|
        invariant em == ApplyAll(old(em), changes[..i])
        invariant Reports(changes[..i], stale, names)
      {
        assert changes[..i + 1][..i] == changes[..i];
        ApplyOne(changes[i]);
        var moreStale := StaleEndpointsOf(changes[i].previous, changes[i].current);
        var moreNames := StaleNamesOf(changes[i].previous, changes[i].current);
        ReportsSnoc(changes, i, stale, moreStale, names, moreNames);
        stale, names := stale + moreStale, names + moreNames;
        i := i + 1;
      }
      assert changes[..i] == changes;
    }
  }

  /** Each stale endpoint and each newly served port of some change, once. */
  ghost predicate Reports(cs: seq<Change>, stale: seq<ServiceEndpoint>, names: seq<ServicePortName>) {
    && Distinct(stale) && (forall se :: se in stale <==> StaleInSome(cs, se))
    && Distinct(names) && (forall port :: port in names <==> ServedInSome(cs, port))
  }

  lemma ReportsSnoc(cs: seq<Change>, i: nat, stale: seq<ServiceEndpoint>, more: seq<ServiceEndpoint>,
                    names: seq<ServicePortName>, moreNames: seq<ServicePortName>)
    requires i < |cs| && DistinctServices(cs) && (forall k :: 0 <= k < |cs| ==> OwnKeys(cs[k]))
    requires Reports(cs[..i], stale, names) && Distinct(more) && Distinct(moreNames)
    requires forall se :: se in more <==> Stale(cs[i].previous, cs[i].current, se)
    requires forall port :: port in moreNames <==> NewlyServed(cs[i].previous, cs[i].current, port)
    ensures Reports(cs[..i + 1], stale + more, names + moreNames)
  {
    assert cs[..i + 1] == cs[..i] + [cs[i]];
    ReportsAreDisjoint(cs, i, stale, more, names, moreNames);
    DistinctAppend(stale, more);
    DistinctAppend(names, moreNames);
    forall se: ServiceEndpoint ensures se in stale + more <==> StaleInSome(cs[..i + 1], se) {
      StaleSnoc(cs[..i], cs[i], se);
    }
    forall port ensures port in names + moreNames <==> ServedInSome(cs[..i + 1], port) {
      StaleSnoc(cs[..i], cs[i], ServiceEndpoint("", port));
    }
  }

  /** Different services report different service ports. */
  lemma ReportsAreDisjoint(cs: seq<Change>, i: nat, stale: seq<ServiceEndpoint>, more: seq<ServiceEndpoint>,
                           names: seq<ServicePortName>, moreNames: seq<ServicePortName>)
    requires i < |cs| && DistinctServices(cs) && forall k :: 0 <= k < |cs| ==> OwnKeys(cs[k])
    requires forall se :: se in stale ==> StaleInSome(cs[..i], se)
    requires forall se :: se in more ==> Stale(cs[i].previous, cs[i].current, se)
    requires forall port :: port in names ==> ServedInSome(cs[..i], port)
    requires forall port :: port in moreNames ==> NewlyServed(cs[i].previous, cs[i].current, port)
    ensures forall se :: se in stale ==> se !in more
    ensures forall port :: port in names ==> port !in moreNames
  {
    forall se | se in stale ensures se !in more {
      var k :| 0 <= k < |cs[..i]| && Stale(cs[..i][k].previous, cs[..i][k].current, se);
      assert cs[..i][k] == cs[k] && se.port in cs[k].previous;
    }
    forall port | port in names ensures port !in moreNames {
      var k :| 0 <= k < |cs[..i]| && NewlyServed(cs[..i][k].previous, cs[..i][k].current, port);
      assert cs[..i][k] == cs[k] && port in cs[k].current;
    }
  }
}
