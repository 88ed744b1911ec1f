/** Grouping cached slices into an endpoints map: the result depends only on what the slices say, and every
    endpoint in it is a copy of one in a slice. */
module EndpointGroups {
  import opened Wrappers
  import opened Order
  import opened EndpointSlices

  type EndpointsMap = map<ServicePortName, seq<Endpoint>>
  type Groups = map<ServicePortName, map<string, Endpoint>>

  /** Some copy of this endpoint of `port` is in `facts`. */
  ghost predicate Said(facts: set<Fact>, port: ServicePortName, s: string) {
    Fact(port, s, true) in facts || Fact(port, s, false) in facts
  }

  /** `group` holds exactly the endpoints said of `port`, each local iff some copy is local. */
  ghost predicate GroupIs(group: map<string, Endpoint>, port: ServicePortName, facts: set<Fact>) {
    && (forall s :: s in group <==> Said(facts, port, s))
    && (forall s :: s in group ==> group[s].endpoint == s && (group[s].isLocal <==> Fact(port, s, true) in facts))
  }

  function GroupOf(groups: Groups, port: ServicePortName): map<string, Endpoint> {
    if port in groups then groups[port] else map[]
  }

  ghost predicate GroupsAre(groups: Groups, facts: set<Fact>) {
    forall port :: GroupIs(GroupOf(groups, port), port, facts)
  }

  function NewEndpoint(node: Node, port: EndpointPort, e: EndpointInfo): Endpoint
    requires UsablePort(port) && UsableEndpoint(node, e)
  {
    Endpoint(JoinHostPort(e.addresses[0], port.port.value), IsLocal(node, e), e.ready, e.serving, e.terminating,
             if e.nodeName.Some? then e.nodeName.value else "", if e.zone.Some? then e.zone.value else "", e.zoneHints)
  }

  /** `ep`, listed for `port`, shows cached endpoint `i` behind port `p`, field by field. */
  predicate Shows(node: Node, port: ServicePortName, p: EndpointPort, i: EndpointInfo, ep: Endpoint) {
    && p.name == Some(port.port) && p.protocol == port.protocol && p.port.Some? && p.port.value != 0
    && i.addresses != [] && node.isIPv6(i.addresses[0]) == node.ipv6
    && ep.endpoint == (if ':' in i.addresses[0] then "[" + i.addresses[0] + "]" else i.addresses[0])
                      + ":" + Itoa(p.port.value)
    && (ep.isLocal <==> node.hostname != "" && i.nodeName == Some(node.hostname))
    && ep.ready == i.ready && ep.serving == i.serving && ep.terminating == i.terminating
    && OrEmpty(ep.nodeName, i.nodeName) && OrEmpty(ep.zone, i.zone) && ep.zoneHints == i.zoneHints
  }

  /** `s` is the string that may be missing, or empty if it is. */
  predicate OrEmpty(s: string, o: Option<string>) {
    (o.Some? ==> s == o.value) && (o.None? ==> s == "")
  }

  ghost predicate SourcedBy(node: Node, port: ServicePortName, ep: Endpoint, info: SliceInfo) {
    exists p, i :: p in info.ports && i in info.endpoints && Shows(node, port, p, i, ep)
  }

  /** One of the cached slices has the endpoint. */
  ghost predicate Sourced(node: Node, port: ServicePortName, ep: Endpoint, infos: map<string, SliceInfo>) {
    exists name :: name in infos && SourcedBy(node, port, ep, infos[name])
  }

  ghost predicate GroupSourced(node: Node, port: ServicePortName, group: map<string, Endpoint>,
                               infos: map<string, SliceInfo>) {
    forall s :: s in group ==> Sourced(node, port, group[s], infos)
  }

  ghost predicate GroupsSourced(node: Node, groups: Groups, infos: map<string, SliceInfo>) {
    forall port :: port in groups ==> GroupSourced(node, port, groups[port], infos)
  }

  lemma NewEndpointIsSourced(node: Node, svc: NamespacedName, p: EndpointPort, e: EndpointInfo,
                             infos: map<string, SliceInfo>, name: string)
    requires UsablePort(p) && UsableEndpoint(node, e)
    requires name in infos && p in infos[name].ports && e in infos[name].endpoints
    ensures Sourced(node, ServicePortName(svc, p.name.value, p.protocol), NewEndpoint(node, p, e), infos)
  {
    var port, ep := ServicePortName(svc, p.name.value, p.protocol), NewEndpoint(node, p, e);
    var host, digits := e.addresses[0], Itoa(p.port.value);
    assert "[" + host + "]:" + digits == ("[" + host + "]") + ":" + digits;
    assert Shows(node, port, p, e, ep);
    assert SourcedBy(node, port, ep, infos[name]);
  }

  lemma FactsSnocEndpoint(node: Node, svc: NamespacedName, p: EndpointPort, es: seq<EndpointInfo>, e: EndpointInfo)
    requires UsablePort(p)
    ensures Facts(node, svc, [p], es + [e]) ==
            Facts(node, svc, [p], es) + (if UsableEndpoint(node, e) then {FactOf(node, svc, p, e)} else {})
  {
  }

  lemma FactsSnocPort(node: Node, svc: NamespacedName, ps: seq<EndpointPort>, p: EndpointPort, es: seq<EndpointInfo>)
    ensures Facts(node, svc, ps + [p], es) == Facts(node, svc, ps, es) + Facts(node, svc, [p], es)
    ensures !UsablePort(p) ==> Facts(node, svc, [p], es) == {}
  {
  }

  /** The result of adding one endpoint: kept if already present, unless the new copy is local. */
  function WithEndpoint(group: map<string, Endpoint>, ep: Endpoint): map<string, Endpoint> {
    if ep.endpoint !in group || ep.isLocal then group[ep.endpoint := ep] else group
  }

  lemma WithEndpointIs(group: map<string, Endpoint>, port: ServicePortName, facts: set<Fact>, ep: Endpoint)
    requires GroupIs(group, port, facts)
    ensures GroupIs(WithEndpoint(group, ep), port, facts + {Fact(port, ep.endpoint, ep.isLocal)})
  {
    var r, more := WithEndpoint(group, ep), facts + {Fact(port, ep.endpoint, ep.isLocal)};
    forall s ensures s in r <==> Said(more, port, s) {
      assert s != ep.endpoint ==> (Said(more, port, s) <==> Said(facts, port, s));
    }
  }

  lemma WithEndpointIsSourced(node: Node, svc: NamespacedName, p: EndpointPort, e: EndpointInfo,
                              group: map<string, Endpoint>, infos: map<string, SliceInfo>, name: string)
    requires UsablePort(p) && UsableEndpoint(node, e)
    requires name in infos && p in infos[name].ports && e in infos[name].endpoints
    requires GroupSourced(node, ServicePortName(svc, p.name.value, p.protocol), group, infos)
    ensures GroupSourced(node, ServicePortName(svc, p.name.value, p.protocol),
                         WithEndpoint(group, NewEndpoint(node, p, e)), infos)
  {
    NewEndpointIsSourced(node, svc, p, e, infos, name);
  }

  lemma EndpointFacts(node: Node, svc: NamespacedName, port: EndpointPort, es: seq<EndpointInfo>, i: nat,
                      facts: set<Fact>)
    requires UsablePort(port) && i < |es|
    ensures facts + Facts(node, svc, [port], es[..i + 1]) ==
            facts + Facts(node, svc, [port], es[..i])
                + (if UsableEndpoint(node, es[i]) then {FactOf(node, svc, port, es[i])} else {})
  {
    assert es[..i + 1] == es[..i] + [es[i]];
    FactsSnocEndpoint(node, svc, port, es[..i], es[i]);
  }

  /** Adds endpoints for one port; an endpoint already present is replaced only by a local copy. */
  method AddEndpoints(node: Node, svc: NamespacedName, port: EndpointPort, group: map<string, Endpoint>,
                      endpoints: seq<EndpointInfo>, ghost facts: set<Fact>,
                      ghost infos: map<string, SliceInfo>, ghost name: string)
    returns (r: map<string, Endpoint>)
    requires UsablePort(port)
    requires name in infos && port in infos[name].ports && endpoints == infos[name].endpoints
    requires GroupIs(group, ServicePortName(svc, port.name.value, port.protocol), facts)
    requires GroupSourced(node, ServicePortName(svc, port.name.value, port.protocol), group, infos)
    ensures GroupIs(r, ServicePortName(svc, port.name.value, port.protocol),
                    facts + Facts(node, svc, [port], endpoints))
    ensures GroupSourced(node, ServicePortName(svc, port.name.value, port.protocol), r, infos)
  {
    ghost var spn := ServicePortName(svc, port.name.value, port.protocol);
    r := group;
    var i := 0;
    assert endpoints[..0] == [] && facts + Facts(node, svc, [port], []) == facts;
    while i < |endpoints|
      invariant 0 <= i <= |endpoints|
      invariant GroupIs(r, spn, facts + Facts(node, svc, [port], endpoints[..i]))
      invariant GroupSourced(node, spn, r, infos)
    {
      var e := endpoints[i];
      ghost var before := facts + Facts(node, svc, [port], endpoints[..i]);
      EndpointFacts(node, svc, port, endpoints, i, facts);
      if UsableEndpoint(node, e) {
        var ep := NewEndpoint(node, port, e);
        WithEndpointIs(r, spn, before, ep);
        WithEndpointIsSourced(node, svc, port, e, r, infos, name);
        if ep.endpoint !in r || ep.isLocal {
          r := r[ep.endpoint := ep];
        }
      }
      i := i + 1;
    }
    assert endpoints[..i] == endpoints;
  }

  lemma AllFactsInsert(node: Node, svc: NamespacedName, infos: map<string, SliceInfo>, rest: set<string>, name: string)
    requires name in rest && rest <= infos.Keys
    ensures AllFacts(node, svc, infos - (rest - {name})) ==
            AllFacts(node, svc, infos - rest) + InfoFacts(node, svc, infos[name])
  {
    var more, done := infos - (rest - {name}), infos - rest;
    var facts := AllFacts(node, svc, done) + InfoFacts(node, svc, infos[name]);
    forall f | f in AllFacts(node, svc, more) ensures f in facts {
      var n :| n in more && f in InfoFacts(node, svc, more[n]);
      assert n != name ==> n in done && done[n] == more[n];
    }
    forall f | f in facts ensures f in AllFacts(node, svc, more) {
      if f in InfoFacts(node, svc, infos[name]) {
        assert name in more && more[name] == infos[name];
      } else {
        var n :| n in done && f in InfoFacts(node, svc, done[n]);
        assert n in more && more[n] == done[n];
      }
    }
  }

  /** Groups all endpoints of a service, whatever the order in which its slices are visited. */
  method EndpointInfoByServicePort(node: Node, svc: NamespacedName, infos: map<string, SliceInfo>)
    returns (groups: Groups)
    ensures GroupsAre(groups, AllFacts(node, svc, infos)) && GroupsSourced(node, groups, infos)
  {
    groups := map[];
    var rest := infos.Keys;
    assert infos - rest == map[];
    while rest != {}
      invariant rest <= infos.Keys
      invariant GroupsAre(groups, AllFacts(node, svc, infos - rest)) && GroupsSourced(node, groups, infos)
      decreases rest
    {
      var name :| name in rest;
      AllFactsInsert(node, svc, infos, rest, name);
      groups := AddSlice(node, svc, groups, infos[name], AllFacts(node, svc, infos - rest), infos, name);
      rest := rest - {name};
    }
    assert infos - rest == infos;
  }

  lemma PortFacts(node: Node, svc: NamespacedName, ports: seq<EndpointPort>, i: nat, es: seq<EndpointInfo>,
                  facts: set<Fact>)
    requires i < |ports|
    ensures facts + Facts(node, svc, ports[..i + 1], es) == facts + Facts(node, svc, ports[..i], es)
            + Facts(node, svc, [ports[i]], es)
  {
    assert ports[..i + 1] == ports[..i] + [ports[i]];
    FactsSnocPort(node, svc, ports[..i], ports[i], es);
  }

  /** Adds one port of a slice, if it is usable. */
  method AddPort(node: Node, svc: NamespacedName, before: Groups, port: EndpointPort, endpoints: seq<EndpointInfo>,
                 ghost facts: set<Fact>, ghost infos: map<string, SliceInfo>, ghost name: string)
    returns (groups: Groups)
    requires GroupsAre(before, facts) && GroupsSourced(node, before, infos)
    requires name in infos && port in infos[name].ports && endpoints == infos[name].endpoints
    ensures GroupsAre(groups, facts + Facts(node, svc, [port], endpoints)) && GroupsSourced(node, groups, infos)
  {
    groups := before;
    if UsablePort(port) {
      var spn := ServicePortName(svc, port.name.value, port.protocol);
      var group := AddEndpoints(node, svc, port, GroupOf(groups, spn), endpoints, facts, infos, name);
      GroupReplaced(node, svc, port, endpoints, groups, group, facts);
      groups := groups[spn := group];
    } else {
      assert facts + Facts(node, svc, [port], endpoints) == facts;
    }
  }

  /** Adds every usable port of one slice. */
  method AddSlice(node: Node, svc: NamespacedName, before: Groups, info: SliceInfo, ghost facts: set<Fact>,
                  ghost infos: map<string, SliceInfo>, ghost name: string)
    returns (groups: Groups)
    requires GroupsAre(before, facts) && GroupsSourced(node, before, infos)
    requires name in infos && info == infos[name]
    ensures GroupsAre(groups, facts + InfoFacts(node, svc, info)) && GroupsSourced(node, groups, infos)
  {
    groups := before;
    var i := 0;
    assert info.ports[..0] == [] && facts + Facts(node, svc, [], info.endpoints) == facts;
    while i < |info.ports|
      invariant 0 <= i <= |info.ports|
      invariant GroupsAre(groups, facts + Facts(node, svc, info.ports[..i], info.endpoints))
      invariant GroupsSourced(node, groups, infos)
    {
      PortFacts(node, svc, info.ports, i, info.endpoints, facts);
      groups := AddPort(node, svc, groups, info.ports[i], info.endpoints,
                        facts + Facts(node, svc, info.ports[..i], info.endpoints), infos, name);
      i := i + 1;
    }
    assert info.ports[..i] == info.ports;
  }

  lemma GroupReplaced(node: Node, svc: NamespacedName, port: EndpointPort, es: seq<EndpointInfo>,
                      groups: Groups, group: map<string, Endpoint>, facts: set<Fact>)
    requires UsablePort(port) && GroupsAre(groups, facts)
    requires GroupIs(group, ServicePortName(svc, port.name.value, port.protocol), facts + Facts(node, svc, [port], es))
    ensures GroupsAre(groups[ServicePortName(svc, port.name.value, port.protocol) := group],
                      facts + Facts(node, svc, [port], es))
  {
    var spn := ServicePortName(svc, port.name.value, port.protocol);
    var more := facts + Facts(node, svc, [port], es);
    var after := groups[spn := group];
    forall p ensures GroupIs(GroupOf(after, p), p, more) {
      assert GroupIs(GroupOf(groups, p), p, facts);
      if p != spn {
        assert forall s, b :: Fact(p, s, b) in more <==> Fact(p, s, b) in facts;
        assert forall s :: Said(more, p, s) <==> Said(facts, p, s);
      }
    }
  }

  // ------------------------------------------------------------ sorted lists

  predicate EndpointLess(a: Endpoint, b: Endpoint) {
    StrLess(a.endpoint, b.endpoint)
  }

  function Strings(eps: seq<Endpoint>): (r: seq<string>)
    ensures |r| == |eps| && forall i :: 0 <= i < |eps| ==> r[i] == eps[i].endpoint
  {
    seq(|eps|, i requires 0 <= i < |eps| => eps[i].endpoint)
  }

  ghost predicate StrictlySorted(ss: seq<string>) {
    forall i, j :: 0 <= i < j < |ss| ==> StrLess(ss[i], ss[j])
  }

  /** `eps` lists exactly the endpoints said of `port`, once each and in string order, with the right
      locality. */
  ghost predicate ListIs(eps: seq<Endpoint>, port: ServicePortName, facts: set<Fact>) {
    && StrictlySorted(Strings(eps))
    && (forall s :: s in Strings(eps) <==> Said(facts, port, s))
    && (forall i :: 0 <= i < |eps| ==> (eps[i].isLocal <==> Fact(port, eps[i].endpoint, true) in facts))
  }

  /** `em` agrees with `facts` about one service port: present iff it has an endpoint. */
  ghost predicate AgreesAt(em: EndpointsMap, port: ServicePortName, facts: set<Fact>) {
    && (port in em ==> em[port] != [] && ListIs(em[port], port, facts))
    && (port !in em ==> forall s :: !Said(facts, port, s))
  }

  /** `em` is an endpoints map for what is said in `facts`. */
  ghost predicate Agrees(em: EndpointsMap, facts: set<Fact>) {
    forall port :: AgreesAt(em, port, facts)
  }

  /** Every endpoint listed for `port` is one of a cached slice. */
  ghost predicate ListSourced(node: Node, port: ServicePortName, eps: seq<Endpoint>, infos: map<string, SliceInfo>) {
    forall i :: 0 <= i < |eps| ==> Sourced(node, port, eps[i], infos)
  }

  ghost predicate MapSourced(node: Node, em: EndpointsMap, infos: map<string, SliceInfo>) {
    forall port :: port in em ==> ListSourced(node, port, em[port], infos)
  }

  /** Collects the endpoints of one group in any order and sorts them. */
  method SortGroup(group: map<string, Endpoint>, port: ServicePortName, ghost facts: set<Fact>)
    returns (eps: seq<Endpoint>)
    requires GroupIs(group, port, facts)
    ensures ListIs(eps, port, facts) && |eps| == |group|
    ensures forall i :: 0 <= i < |eps| ==> eps[i].endpoint in group && eps[i] == group[eps[i].endpoint]
  {
    eps := [];
    var rest := group.Keys;
    while rest != {}
      invariant rest <= group.Keys && |eps| + |rest| == |group.Keys|
      invariant Distinct(Strings(eps))
      invariant forall i :: 0 <= i < |eps| ==> eps[i].endpoint in group && eps[i] == group[eps[i].endpoint]
      invariant forall s :: s in Strings(eps) <==> s in group && s !in rest
      decreases rest
    {
      var s :| s in rest;
      assert Strings(eps + [group[s]]) == Strings(eps) + [s];
      eps := eps + [group[s]];
      rest := rest - {s};
    }
    ghost var unsorted := eps;
    ByKeyIsWeakOrder((e: Endpoint) => e.endpoint, EndpointLess);
    eps := Sort(eps, EndpointLess);
    SortedGroup(group, unsorted, eps);
  }

  lemma SortedGroup(group: map<string, Endpoint>, unsorted: seq<Endpoint>, eps: seq<Endpoint>)
    requires Distinct(Strings(unsorted)) && Sorted(eps, EndpointLess) && multiset(eps) == multiset(unsorted)
    requires forall i :: 0 <= i < |unsorted| ==>
             unsorted[i].endpoint in group && unsorted[i] == group[unsorted[i].endpoint]
    ensures StrictlySorted(Strings(eps)) && |eps| == |unsorted|
    ensures forall s :: s in Strings(eps) <==> s in Strings(unsorted)
    ensures forall i :: 0 <= i < |eps| ==> eps[i].endpoint in group && eps[i] == group[eps[i].endpoint]
  {
    assert |eps| == |multiset(eps)| == |multiset(unsorted)| == |unsorted|;
    SameMembers(eps, unsorted);
    assert forall i :: 0 <= i < |unsorted| ==> Strings(unsorted)[i] == unsorted[i].endpoint;
    assert Distinct(unsorted);
    DistinctPermutes(unsorted, eps);
    forall i | 0 <= i < |eps| ensures eps[i].endpoint in group && eps[i] == group[eps[i].endpoint] {
      assert eps[i] in unsorted;
    }
    forall i, j | 0 <= i < j < |eps| ensures StrLess(Strings(eps)[i], Strings(eps)[j]) {
      StrLessTotal(eps[i].endpoint, eps[j].endpoint);
      assert !EndpointLess(eps[j], eps[i]);
    }
    forall s ensures s in Strings(eps) <==> s in Strings(unsorted) {
      if s in Strings(eps) {
        var i :| 0 <= i < |eps| && Strings(eps)[i] == s;
        assert eps[i] in unsorted;
        var j :| 0 <= j < |unsorted| && unsorted[j] == eps[i];
        assert Strings(unsorted)[j] == s;
      }
      if s in Strings(unsorted) {
        var j :| 0 <= j < |unsorted| && Strings(unsorted)[j] == s;
        assert unsorted[j] in eps;
        var i :| 0 <= i < |eps| && eps[i] == unsorted[j];
        assert Strings(eps)[i] == s;
      }
    }
  }

  method EndpointsMapFromEndpointInfo(groups: Groups, ghost facts: set<Fact>, ghost node: Node,
                                      ghost infos: map<string, SliceInfo>)
    returns (em: EndpointsMap)
    requires GroupsAre(groups, facts) && GroupsSourced(node, groups, infos)
    ensures Agrees(em, facts) && MapSourced(node, em, infos)
  {
    em := map[];
    var rest := groups.Keys;
    forall port | port !in groups ensures AgreesAt(em, port, facts) {
      assert GroupIs(GroupOf(groups, port), port, facts);
    }
    while rest != {}
      invariant rest <= groups.Keys && em.Keys <= groups.Keys - rest
      invariant forall port :: port !in rest ==> AgreesAt(em, port, facts)
      invariant MapSourced(node, em, infos)
      decreases rest
    {
      var port :| port in rest;
      assert GroupIs(GroupOf(groups, port), port, facts);
      if |groups[port]| > 0 {
        var eps := SortGroup(groups[port], port, facts);
        assert ListSourced(node, port, eps, infos);
        em := em[port := eps];
      }
      rest := rest - {port};
    }
  }

  /** `getEndpointsMap`. */
  method GetEndpointsMap(node: Node, svc: NamespacedName, infos: map<string, SliceInfo>) returns (em: EndpointsMap)
    ensures Agrees(em, AllFacts(node, svc, infos)) && MapSourced(node, em, infos)
  {
    var groups := EndpointInfoByServicePort(node, svc, infos);
    em := EndpointsMapFromEndpointInfo(groups, AllFacts(node, svc, infos), node, infos);
  }

  // ------------------------------------------------------- order independence

  /** The part of an endpoint that matters to the proxy rules and to staleness. */
  function Shape(eps: seq<Endpoint>): (r: seq<(string, bool)>)
    ensures |r| == |eps| && forall i :: 0 <= i < |eps| ==> r[i] == (eps[i].endpoint, eps[i].isLocal)
  {
    seq(|eps|, i requires 0 <= i < |eps| => (eps[i].endpoint, eps[i].isLocal))
  }

  lemma {:induction false} StrictlySortedUnique(a: seq<string>, b: seq<string>)
    requires StrictlySorted(a) && StrictlySorted(b)
    requires forall s :: s in a <==> s in b
    ensures a == b
  {
    if a != [] { assert a[0] in b; }
    if b != [] { assert b[0] in a; }
    if a != [] && b != [] {
      var i :| 0 <= i < |b| && b[i] == a[0];
      var j :| 0 <= j < |a| && a[j] == b[0];
      if i != 0 && j != 0 {
        StrLessTransitive(a[0], b[0], a[0]);
        StrLessIrreflexive(a[0]);
      }
      forall s ensures s in a[1..] <==> s in b[1..] {
        NotInTail(a);
        NotInTail(b);
      }
      StrictlySortedUnique(a[1..], b[1..]);
      assert a == [a[0]] + a[1..] && b == [b[0]] + b[1..];
    }
  }

  lemma NotInTail(a: seq<string>)
    requires StrictlySorted(a) && a != []
    ensures forall s :: s in a[1..] <==> s in a && s != a[0]
  {
    assert a == [a[0]] + a[1..];
    StrLessIrreflexive(a[0]);
  }

  /** Two maps that agree with the same facts have the same service ports, the same endpoint strings
      in the same order and the same locality: iteration order does not show. */
  lemma AgreeingMapsAreEqual(a: EndpointsMap, b: EndpointsMap, facts: set<Fact>)
    requires Agrees(a, facts) && Agrees(b, facts)
    ensures a.Keys == b.Keys
    ensures forall port :: port in a ==> Shape(a[port]) == Shape(b[port])
  {
    forall port ensures (port in a <==> port in b) && (port in a ==> Shape(a[port]) == Shape(b[port])) {
      SameAt(a, b, port, facts);
    }
  }

  lemma SameAt(a: EndpointsMap, b: EndpointsMap, port: ServicePortName, facts: set<Fact>)
    requires AgreesAt(a, port, facts) && AgreesAt(b, port, facts)
    ensures port in a <==> port in b
    ensures port in a ==> Shape(a[port]) == Shape(b[port])
  {
    if port in a { assert Strings(a[port])[0] in Strings(a[port]); }
    if port in b { assert Strings(b[port])[0] in Strings(b[port]); }
    if port in a && port in b {
      StrictlySortedUnique(Strings(a[port]), Strings(b[port]));
      assert forall i :: 0 <= i < |a[port]| ==>
          a[port][i].endpoint == Strings(a[port])[i] == Strings(b[port])[i] == b[port][i].endpoint;
    }
  }
}
