/** `ServiceChangeTracker` and `ServiceMap`: accumulated changes and their application. */
module ServiceChanges {
  import opened Wrappers
  import opened EndpointSlices

  datatype PortSpec = PortSpec(name: string, protocol: Protocol, port: int, nodePort: int)

  /** What a service says for all its ports; addresses and ranges are those of the tracker's IP family. */
  datatype ServiceSpec = ServiceSpec(
    clientIPAffinity: bool, timeoutSeconds: int,
    externalIPs: seq<string>, ingressIPs: seq<string>, sourceRanges: seq<string>,
    needsHealthCheck: bool, healthCheckNodePort: int,
    onlyLocal: bool, onlyLocalInternal: bool, internalPolicy: Option<string>, hints: string)

  /** A service; `skip` is `ShouldSkipService` and `clusterIP` the address of the tracker's IP family. */
  datatype Service = Service(id: NamespacedName, skip: bool, clusterIP: string, spec: ServiceSpec, ports: seq<PortSpec>)

  /** `BaseServiceInfo`. */
  datatype ServicePort = ServicePort(
    clusterIP: string, port: int, protocol: Protocol, nodePort: int,
    clientIPAffinity: bool, stickyMaxAgeSeconds: int,
    externalIPs: seq<string>, loadBalancerIPs: seq<string>, loadBalancerSourceRanges: seq<string>,
    healthCheckNodePort: int,
    nodeLocalExternal: bool, nodeLocalInternal: bool, internalTrafficPolicy: Option<string>, hintsAnnotation: string)

  type ServiceMap = map<ServicePortName, ServicePort>

  function PortKey(s: Service, p: PortSpec): ServicePortName {
    ServicePortName(s.id, p.name, p.protocol)
  }

  /** `newBaseServiceInfo`. */
  function PortInfo(s: Service, p: PortSpec): ServicePort {
    var spec := s.spec;
    ServicePort(s.clusterIP, p.port, p.protocol, p.nodePort,
                spec.clientIPAffinity, if spec.clientIPAffinity then spec.timeoutSeconds else 0,
                spec.externalIPs, spec.ingressIPs, spec.sourceRanges,
                if spec.needsHealthCheck then spec.healthCheckNodePort else 0,
                spec.onlyLocal, spec.onlyLocalInternal, spec.internalPolicy, spec.hints)
  }

  /** `info` describes port `p` of the service, field by field. */
  predicate Describes(info: ServicePort, s: Service, p: PortSpec) {
    && info.clusterIP == s.clusterIP && info.port == p.port && info.protocol == p.protocol
    && info.nodePort == p.nodePort
    && info.clientIPAffinity == s.spec.clientIPAffinity
    && info.stickyMaxAgeSeconds == (if s.spec.clientIPAffinity then s.spec.timeoutSeconds else 0)
    && info.externalIPs == s.spec.externalIPs && info.loadBalancerIPs == s.spec.ingressIPs
    && info.loadBalancerSourceRanges == s.spec.sourceRanges
    && info.healthCheckNodePort == (if s.spec.needsHealthCheck then s.spec.healthCheckNodePort else 0)
    && info.nodeLocalExternal == s.spec.onlyLocal && info.nodeLocalInternal == s.spec.onlyLocalInternal
    && info.internalTrafficPolicy == s.spec.internalPolicy && info.hintsAnnotation == s.spec.hints
  }

  /** Port `i` is the last one of the service with the name and protocol of `port`. */
  ghost predicate IsPort(s: Service, i: nat, port: ServicePortName) {
    && port.service == s.id && i < |s.ports| && s.ports[i].name == port.port && s.ports[i].protocol == port.protocol
    && forall j :: i < j < |s.ports| ==> s.ports[j].name != port.port || s.ports[j].protocol != port.protocol
  }

  /** `m` has an entry for each name and protocol of a port of the service, which describes its last port with
      them, and no other. */
  ghost predicate MapOf(m: ServiceMap, s: Service) {
    && (forall port :: port in m ==> exists i: nat :: IsPort(s, i, port))
    && (forall port, i: nat :: IsPort(s, i, port) ==> port in m && Describes(m[port], s, s.ports[i]))
  }

  /** One entry for each port name and protocol; of several with the same key the last one wins. */
  function PortsMap(s: Service, ports: seq<PortSpec>): (r: ServiceMap)
    ensures forall port :: port in r ==> port.service == s.id
  {
    if ports == [] then map[]
    else PortsMap(s, ports[..|ports| - 1])[PortKey(s, Last(ports)) := PortInfo(s, Last(ports))]
  }

  /** `serviceToServiceMap`: `None` is a nil map, which differs from an empty one. */
  function ToServiceMap(s: Option<Service>): (r: Option<ServiceMap>)
    ensures r.Some? ==> s.Some? && forall port :: port in r.value ==> port.service == s.value.id
  {
    if s.None? || s.value.skip || s.value.clusterIP == "" then None else Some(PortsMap(s.value, s.value.ports))
  }

  method ServiceToServiceMap(s: Option<Service>) returns (r: Option<ServiceMap>)
    ensures r == ToServiceMap(s)
    ensures r.None? <==> s.None? || s.value.skip || s.value.clusterIP == ""
    ensures r.Some? ==> MapOf(r.value, s.value)
  {
    if s.None? || s.value.skip || s.value.clusterIP == "" {
      return None;
    }
    var m: ServiceMap := map[];
    var i := 0;
    while i < |s.value.ports|
      invariant 0 <= i <= |s.value.ports|
      invariant m == PortsMap(s.value, s.value.ports[..i])
    {
      var p := s.value.ports[i];
      m := m[PortKey(s.value, p) := PortInfo(s.value, p)];
      i := i + 1;
      assert s.value.ports[..i][..i - 1] == s.value.ports[..i - 1];
    }
    assert s.value.ports[..i] == s.value.ports;
    r := Some(m);
    PortsMapIs(s.value);
  }

  lemma {:induction false} LastPortWins(s: Service, n: nat, i: nat, port: ServicePortName)
    requires i < n <= |s.ports| && IsPort(s, i, port)
    ensures port in PortsMap(s, s.ports[..n]) && Describes(PortsMap(s, s.ports[..n])[port], s, s.ports[i])
  {
    assert s.ports[..n][..n - 1] == s.ports[..n - 1] && Last(s.ports[..n]) == s.ports[n - 1];
    if i < n - 1 {
      LastPortWins(s, n - 1, i, port);
      assert PortKey(s, s.ports[n - 1]) != port;
    }
  }

  lemma {:induction false} EntryOfSomePort(s: Service, n: nat, port: ServicePortName) returns (i: nat)
    requires n <= |s.ports| && port in PortsMap(s, s.ports[..n])
    ensures i < n && PortKey(s, s.ports[i]) == port
    ensures forall j :: i < j < n ==> PortKey(s, s.ports[j]) != port
  {
    assert s.ports[..n][..n - 1] == s.ports[..n - 1] && Last(s.ports[..n]) == s.ports[n - 1];
    if PortKey(s, s.ports[n - 1]) == port {
      i := n - 1;
    } else {
      i := EntryOfSomePort(s, n - 1, port);
    }
  }

  lemma PortsMapIs(s: Service)
    ensures MapOf(PortsMap(s, s.ports), s)
  {
    var m := PortsMap(s, s.ports);
    assert s.ports[..|s.ports|] == s.ports;
    forall port | port in m ensures exists i: nat :: IsPort(s, i, port) {
      var i := EntryOfSomePort(s, |s.ports|, port);
      forall j | i < j < |s.ports| ensures s.ports[j].name != port.port || s.ports[j].protocol != port.protocol {
        assert PortKey(s, s.ports[j]) != port;
      }
      assert IsPort(s, i, port);
    }
    forall port, i: nat | IsPort(s, i, port) ensures port in m && Describes(m[port], s, s.ports[i]) {
      LastPortWins(s, |s.ports|, i, port);
    }
  }

  /** The entries of a possibly nil map. */
  function Entries(m: Option<ServiceMap>): ServiceMap {
    if m.Some? then m.value else map[]
  }

  /** `serviceChange`. */
  datatype Change = Change(previous: Option<ServiceMap>, current: Option<ServiceMap>)
  type Items = map<NamespacedName, Change>

  function Lookup(m: ServiceMap, port: ServicePortName): Option<ServicePort> {
    if port in m then Some(m[port]) else None
  }

  /** The service an event is about. */
  function Subject(previous: Option<Service>, current: Option<Service>): Option<NamespacedName> {
    if current.Some? then Some(current.value.id) else if previous.Some? then Some(previous.value.id) else None
  }

  function Accumulate(items: Items, previous: Option<Service>, current: Option<Service>): Items {
    match Subject(previous, current)
    case None => items
    case Some(id) =>
      var change := Change(if id in items then items[id].previous else ToServiceMap(previous), ToServiceMap(current));
      if change.previous == change.current then items - {id} else items[id := change]
  }

  /** `merge(current)`, then `unmerge` of what was in `previous` and is not in `current`. */
  function ApplyChange(m: ServiceMap, c: Change): ServiceMap {
    (m + Entries(c.current)) - (Entries(c.previous).Keys - Entries(c.current).Keys)
  }

  function ApplyAll(m: ServiceMap, items: Items, order: seq<NamespacedName>): ServiceMap
    requires forall i :: 0 <= i < |order| ==> order[i] in items
  {
    if order == [] then m else ApplyChange(ApplyAll(m, items, order[..|order| - 1]), items[Last(order)])
  }

  /** Every item once, in some order. */
  ghost predicate IsOrder(items: Items, order: seq<NamespacedName>) {
    && (forall i, j :: 0 <= i < j < |order| ==> order[i] != order[j])
    && (forall id :: id in order <==> id in items)
  }

  /** A change speaks only of its own service. */
  ghost predicate OwnKeys(items: Items) {
    forall id, port :: id in items && (port in Entries(items[id].previous) || port in Entries(items[id].current)) ==>
        port.service == id
  }

  lemma {:induction false} ApplyAllAt(m: ServiceMap, items: Items, order: seq<NamespacedName>, port: ServicePortName)
    requires OwnKeys(items)
    requires forall i :: 0 <= i < |order| ==> order[i] in items
    requires forall i, j :: 0 <= i < j < |order| ==> order[i] != order[j]
    ensures Lookup(ApplyAll(m, items, order), port) ==
            if port.service in order then Lookup(ApplyChange(m, items[port.service]), port) else Lookup(m, port)
  {
    if order != [] {
      var ds := order[..|order| - 1];
      ApplyAllAt(m, items, ds, port);
      assert order == ds + [Last(order)];
      assert Last(order) !in ds;
    }
  }

  /** Any order gives the same map. */
  lemma OrderDoesNotShow(m: ServiceMap, items: Items, order: seq<NamespacedName>, other: seq<NamespacedName>)
    requires OwnKeys(items) && IsOrder(items, order) && IsOrder(items, other)
    ensures ApplyAll(m, items, order) == ApplyAll(m, items, other)
  {
    forall port ensures Lookup(ApplyAll(m, items, order), port) == Lookup(ApplyAll(m, items, other), port) {
      ApplyAllAt(m, items, order, port);
      ApplyAllAt(m, items, other, port);
    }
    SameLookups(ApplyAll(m, items, order), ApplyAll(m, items, other));
  }

  lemma SameLookups(a: ServiceMap, b: ServiceMap)
    requires forall port :: Lookup(a, port) == Lookup(b, port)
    ensures a == b
  {
    forall port ensures port in a <==> port in b { assert Lookup(a, port) == Lookup(b, port); }
    forall port | port in a ensures a[port] == b[port] { assert Lookup(a, port) == Lookup(b, port); }
  }

  /** The cluster IPs of UDP service ports that are present before and absent after. */
  function StaleIPs(before: ServiceMap, after: ServiceMap): set<string> {
    set port | port in before && port !in after && before[port].protocol.UDP? :: before[port].clusterIP
  }

  // ----------------------------------------------------------------- the classes

  class ServiceChangeTracker {
    var items: Items

    constructor ()
      ensures items == map[]
    {
      items := map[];
    }

    /** `Update(previous, current)`. */
    method Update(previous: Option<Service>, current: Option<Service>) returns (pending: bool)
      modifies this
      ensures items == Accumulate(old(items), previous, current)
      ensures pending <==> Subject(previous, current).Some? && items != map[]
    {
      var subject := if current.Some? then current else previous;
      if subject.None? {
        return false;
      }
      var id := subject.value.id;
      var before := None;
      if id in items {
        before := items[id].previous;
      } else {
        before := ServiceToServiceMap(previous);
      }
      var after := ServiceToServiceMap(current);
      if before == after {
        items := items - {id};
      } else {
        items := items[id := Change(before, after)];
      }
      pending := |items| > 0;
    }
  }

  class ServiceTable {
    var m: ServiceMap

    constructor ()
      ensures m == map[]
    {
      m := map[];
    }

    method Merge(other: ServiceMap)
      modifies this
      ensures m == old(m) + other
    {
      var rest := other.Keys;
      while rest != {}
        invariant rest <= other.Keys
        invariant m == old(m) + (map port | port in other && port !in rest :: other[port])
        decreases rest
      {
        var port :| port in rest;
        m := m[port := other[port]];
        rest := rest - {port};
      }
    }

    /** Removes the entries of `other`, collecting the cluster IPs of the UDP ones. */
    method Unmerge(other: ServiceMap, collected: set<string>) returns (stale: set<string>)
      modifies this
      ensures m == old(m) - other.Keys
      ensures stale == collected + StaleIPs(old(m), m)
    {
      stale := collected;
      var rest := other.Keys;
      while rest != {}
        invariant rest <= other.Keys && m == old(m) - (other.Keys - rest)
        invariant stale == collected + StaleIPs(old(m), m)
        decreases rest
      {
        var port :| port in rest;
        ghost var before := m;
        if port in m {
          if m[port].protocol.UDP? {
            stale := stale + {m[port].clusterIP};
          }
          m := m - {port};
        }
        StaleWithout(old(m), before, port);
        rest := rest - {port};
      }
    }

    /** Applies every accumulated change, in any order, and reports stale UDP cluster IPs. */
    method Apply(tracker: ServiceChangeTracker) returns (stale: set<string>, ghost order: seq<NamespacedName>)
      modifies this, tracker
      ensures IsOrder(old(tracker.items), order) && tracker.items == map[]
      ensures m == ApplyAll(old(m), old(tracker.items), order)
      ensures stale == StaleAlong(old(m), old(tracker.items), order)
      ensures OwnKeys(old(tracker.items)) ==> stale == StaleIPs(old(m), m)
    {
      var items := tracker.items;
      var rest := items.Keys;
      order, stale := [], {};
      while rest != {}
        invariant rest <= items.Keys && items == old(tracker.items)
        invariant forall id :: id in order <==> id in items && id !in rest
        invariant forall i, j :: 0 <= i < j < |order| ==> order[i] != order[j]
        invariant m == ApplyAll(old(m), items, order)
        invariant stale == StaleAlong(old(m), items, order)
        decreases rest
      {
        var id :| id in rest;
        var change := items[id];
        ghost var before := m;
        Merge(Entries(change.current));
        var filtered := Filter(Entries(change.previous), Entries(change.current));
        stale := Unmerge(filtered, stale);
        assert m == ApplyChange(before, change);
        ghost var longer := order + [id];
        assert longer[..|longer| - 1] == order;
        order := longer;
        rest := rest - {id};
      }
      tracker.items := map[];
      if OwnKeys(items) {
        StaleAlongIsStale(old(m), items, order);
      }
    }

    /** `filter`: what is left of `previous` once the keys of `current` are removed. */
    method Filter(previous: ServiceMap, current: ServiceMap) returns (r: ServiceMap)
      ensures r == previous - current.Keys
    {
      r := previous;
      var rest := previous.Keys;
      while rest != {}
        invariant rest <= previous.Keys
        invariant r == previous - ((previous.Keys - rest) * current.Keys)
        decreases rest
      {
        var port :| port in rest;
        if port in current {
          r := r - {port};
        }
        rest := rest - {port};
      }
    }
  }

  lemma StaleWithout(before: ServiceMap, m: ServiceMap, port: ServicePortName)
    requires forall p :: p in m ==> p in before && before[p] == m[p]
    ensures StaleIPs(before, m - {port}) ==
            StaleIPs(before, m) + (if port in m && m[port].protocol.UDP? then {m[port].clusterIP} else {})
  {
    forall ip | ip in StaleIPs(before, m) ensures ip in StaleIPs(before, m - {port}) {
      var p :| p in before && p !in m && before[p].protocol.UDP? && before[p].clusterIP == ip;
      assert p !in m - {port};
    }
  }

  /** The cluster IPs that each change makes stale when its turn comes. */
  function StaleAlong(m: ServiceMap, items: Items, order: seq<NamespacedName>): set<string>
    requires forall i :: 0 <= i < |order| ==> order[i] in items
    decreases |order|
  {
    if order == [] then {}
    else
      var before := order[..|order| - 1];
      var now, c := ApplyAll(m, items, before), items[Last(order)];
      StaleAlong(m, items, before) + StaleIPs(now + Entries(c.current), ApplyChange(now, c))
  }

  lemma {:induction false} StaleAlongIsStale(m: ServiceMap, items: Items, order: seq<NamespacedName>)
    requires OwnKeys(items) && forall i :: 0 <= i < |order| ==> order[i] in items
    requires forall i, j :: 0 <= i < j < |order| ==> order[i] != order[j]
    ensures StaleAlong(m, items, order) == StaleIPs(m, ApplyAll(m, items, order))
    decreases |order|
  {
    if order != [] {
      StaleAlongIsStale(m, items, order[..|order| - 1]);
      StaleMore(m, items, order[..|order| - 1], Last(order));
    }
  }

  /** Applying one more change adds the cluster IPs that this change alone makes stale. */
  lemma StaleMore(m: ServiceMap, items: Items, order: seq<NamespacedName>, id: NamespacedName)
    requires OwnKeys(items) && id in items && id !in order
    requires forall i :: 0 <= i < |order| ==> order[i] in items
    requires forall i, j :: 0 <= i < j < |order| ==> order[i] != order[j]
    ensures var now := ApplyAll(m, items, order);
            var merged := now + Entries(items[id].current);
            StaleIPs(m, ApplyChange(now, items[id])) == StaleIPs(m, now) + StaleIPs(merged, ApplyChange(now, items[id]))
  {
    var now := ApplyAll(m, items, order);
    var cur, prev := Entries(items[id].current), Entries(items[id].previous);
    var merged := now + cur;
    var after := ApplyChange(now, items[id]);
    forall port
      ensures port in prev && port !in cur ==>
              Lookup(now, port) == Lookup(m, port) && Lookup(merged, port) == Lookup(m, port)
    {
      if port in prev && port !in cur { ApplyAllAt(m, items, order, port); }
    }
    forall port ensures port in m && port !in now ==> port !in after {
      if port in m && port !in now && port in cur {
        ApplyAllAt(m, items, order, port);
      }
    }
    forall ip | ip in StaleIPs(m, after) ensures ip in StaleIPs(m, now) + StaleIPs(merged, after) {
      var p :| p in m && p !in after && m[p].protocol.UDP? && m[p].clusterIP == ip;
      if p in now {
        assert p in prev && p !in cur;
        assert Lookup(merged, p) == Lookup(m, p);
      }
    }
    forall ip | ip in StaleIPs(merged, after) ensures ip in StaleIPs(m, after) {
      var p :| p in merged && p !in after && merged[p].protocol.UDP? && merged[p].clusterIP == ip;
      assert p in prev && p !in cur;
      assert Lookup(merged, p) == Lookup(m, p);
    }
  }
}
