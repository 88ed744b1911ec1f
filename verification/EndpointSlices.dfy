/** Endpoint slices, the cached form of a slice, and what a set of slices says about endpoints. */
module EndpointSlices {
  import opened Wrappers
  import opened Order

  datatype NamespacedName = NamespacedName(namespace: string, name: string)
  datatype Protocol = TCP | UDP | SCTP
  datatype ServicePortName = ServicePortName(service: NamespacedName, port: string, protocol: Protocol)

  datatype AddressType = IPv4 | IPv6 | FQDN
  datatype EndpointPort = EndpointPort(name: Option<string>, port: Option<int>, protocol: Protocol,
                                       appProtocol: Option<string>)

  /** An endpoint of a slice; `hints` are the zones it is for, none if topology-aware hints are disabled. */
  datatype SliceEndpoint = SliceEndpoint(addresses: seq<string>, nodeName: Option<string>, zone: Option<string>,
                                         ready: Option<bool>, serving: Option<bool>, terminating: Option<bool>,
                                         hints: seq<string>)

  datatype Slice = Slice(namespace: string, name: string, service: Option<string>, addressType: AddressType,
                         ports: seq<EndpointPort>, endpoints: seq<SliceEndpoint>)

  /** `endpointInfo` and `endpointSliceInfo`. */
  datatype EndpointInfo = EndpointInfo(addresses: seq<string>, nodeName: Option<string>, zone: Option<string>,
                                       ready: bool, serving: bool, terminating: bool,
                                       zoneHints: Option<set<string>>)
  datatype SliceInfo = SliceInfo(ports: seq<EndpointPort>, endpoints: seq<EndpointInfo>, remove: bool)

  /** `BaseEndpointInfo`. */
  datatype Endpoint = Endpoint(endpoint: string, isLocal: bool, ready: bool, serving: bool, terminating: bool,
                               nodeName: string, zone: string, zoneHints: Option<set<string>>)

  /** The proxy's own host name and IP family, and the IP family test it uses. */
  datatype Node = Node(hostname: string, ipv6: bool, isIPv6: string -> bool)

  // ---------------------------------------------------------- the cached form

  function Convert(e: SliceEndpoint): EndpointInfo {
    EndpointInfo(e.addresses, e.nodeName, e.zone,
                 e.ready.None? || e.ready.value, e.serving.None? || e.serving.value,
                 e.terminating.Some? && e.terminating.value,
                 if e.hints == [] then None else Some(set z | z in e.hints))
  }

  function ConvertAll(es: seq<SliceEndpoint>): (r: seq<EndpointInfo>)
    ensures |r| == |es| && forall i :: 0 <= i < |es| ==> r[i] == Convert(es[i])
  {
    seq(|es|, i requires 0 <= i < |es| => Convert(es[i]))
  }

  /** `byPort`: the comparison dereferences both port numbers. */
  predicate PortLess(a: EndpointPort, b: EndpointPort) {
    PortNumber(a) < PortNumber(b)
  }

  function PortNumber(p: EndpointPort): int {
    if p.port.Some? then p.port.value else 0
  }

  /** Sorting two or more ports needs every port number to be set. */
  ghost predicate PortsComparable(ports: seq<EndpointPort>) {
    |ports| < 2 || forall i :: 0 <= i < |ports| ==> ports[i].port.Some?
  }

  function Join(ss: seq<string>): string {
    if ss == [] then "" else if |ss| == 1 then ss[0] else ss[0] + "," + Join(ss[1..])
  }

  /** `byAddress`. */
  predicate AddressLess(a: EndpointInfo, b: EndpointInfo) {
    StrLess(Join(a.addresses), Join(b.addresses))
  }

  /** `info` is a form `newEndpointSliceInfo` can give: ties may be sorted either way. */
  ghost predicate IsInfoOf(slice: Slice, remove: bool, info: SliceInfo) {
    && info.remove == remove
    && Sorted(info.ports, PortLess) && multiset(info.ports) == multiset(slice.ports)
    && (if remove then info.endpoints == []
        else Sorted(info.endpoints, AddressLess) && multiset(info.endpoints) == multiset(ConvertAll(slice.endpoints)))
  }

  method NewEndpointSliceInfo(slice: Slice, remove: bool) returns (info: SliceInfo)
    requires PortsComparable(slice.ports)
    ensures IsInfoOf(slice, remove, info)
  {
    assert WeakOrder(PortLess);
    var ports := Sort(slice.ports, PortLess);
    var endpoints := [];
    if !remove {
      var i := 0;
      while i < |slice.endpoints|
        invariant 0 <= i <= |slice.endpoints|
        invariant endpoints == ConvertAll(slice.endpoints)[..i]
      {
        endpoints := endpoints + [Convert(slice.endpoints[i])];
        i := i + 1;
      }
      assert endpoints == ConvertAll(slice.endpoints);
      ByKeyIsWeakOrder((e: EndpointInfo) => Join(e.addresses), AddressLess);
      endpoints := Sort(endpoints, AddressLess);
    }
    info := SliceInfo(ports, endpoints, remove);
  }

  /** Two slices with the same ports and endpoints in any order. */
  ghost predicate Permuted(a: Slice, b: Slice) {
    && multiset(a.ports) == multiset(b.ports)
    && multiset(ConvertAll(a.endpoints)) == multiset(ConvertAll(b.endpoints))
    && b == a.(ports := b.ports, endpoints := b.endpoints)
  }

  /** Ports with the same number, and endpoints with the same joined addresses, are the same. */
  ghost predicate KeysDistinguish(a: Slice) {
    TiesAreEqual(a.ports, PortLess) && TiesAreEqual(ConvertAll(a.endpoints), AddressLess)
  }

  lemma TiesPermute<T>(a: seq<T>, b: seq<T>, less: (T, T) -> bool)
    requires multiset(a) == multiset(b) && TiesAreEqual(a, less)
    ensures TiesAreEqual(b, less)
  {
    forall x | x in b ensures x in a { assert x in multiset(b); }
  }

  /** Sorting makes the cached form canonical: permuted slices give the same one. */
  lemma InfoIsCanonical(a: Slice, b: Slice, remove: bool, x: SliceInfo, y: SliceInfo)
    requires Permuted(a, b) && KeysDistinguish(a)
    requires IsInfoOf(a, remove, x) && IsInfoOf(b, remove, y)
    ensures x == y
  {
    TiesPermute(a.ports, x.ports, PortLess);
    SortedIsCanonical(x.ports, y.ports, PortLess);
    if !remove {
      TiesPermute(ConvertAll(a.endpoints), x.endpoints, AddressLess);
      SortedIsCanonical(x.endpoints, y.endpoints, AddressLess);
    }
  }

  /** That condition is exact: a slice has one cached form if and only if its keys distinguish. */
  lemma InfoIsCanonicalExactly(a: Slice, x: SliceInfo)
    requires IsInfoOf(a, false, x)
    ensures (forall y :: IsInfoOf(a, false, y) ==> y == x) <==> KeysDistinguish(a)
  {
    if KeysDistinguish(a) {
      forall y | IsInfoOf(a, false, y) ensures y == x {
        InfoIsCanonical(a, a, false, x, y);
      }
    } else if !TiesAreEqual(a.ports, PortLess) {
      if TiesAreEqual(x.ports, PortLess) { TiesPermute(x.ports, a.ports, PortLess); }
      var ports := SwapTies(x.ports, PortLess);
      assert IsInfoOf(a, false, x.(ports := ports));
    } else {
      ByKeyIsWeakOrder((e: EndpointInfo) => Join(e.addresses), AddressLess);
      if TiesAreEqual(x.endpoints, AddressLess) { TiesPermute(x.endpoints, ConvertAll(a.endpoints), AddressLess); }
      var endpoints := SwapTies(x.endpoints, AddressLess);
      assert IsInfoOf(a, false, x.(endpoints := endpoints));
    }
  }

  // ------------------------------------------------- what slices say together

  function Itoa(n: int): string {
    if n < 0 then "-" + Digits(-n) else Digits(n)
  }

  function Digits(n: nat): string {
    if n < 10 then [('0' as int + n) as char] else Digits(n / 10) + [('0' as int + n % 10) as char]
  }

  /** The number a string of decimal digits stands for. */
  function ReadDigits(s: string): int {
    if s == "" then 0 else 10 * ReadDigits(s[..|s| - 1]) + (s[|s| - 1] as int - '0' as int)
  }

  /** A number is written in decimal digits that stand for it, without a leading zero unless it is zero. */
  lemma {:induction false} DigitsReadBack(n: nat)
    ensures ReadDigits(Digits(n)) == n
    ensures Digits(n) != "" && forall i :: 0 <= i < |Digits(n)| ==> '0' <= Digits(n)[i] <= '9'
    ensures n > 0 ==> Digits(n)[0] != '0'
  {
    if n >= 10 {
      DigitsReadBack(n / 10);
      var s := Digits(n);
      assert s[..|s| - 1] == Digits(n / 10);
    } else {
      var s := Digits(n);
      assert s[..|s| - 1] == "";
    }
  }

  /** So a written number reads back, with a sign if it is negative. */
  lemma ItoaReadsBack(n: int)
    ensures n >= 0 ==> ReadDigits(Itoa(n)) == n
    ensures n < 0 ==> Itoa(n) != "" && Itoa(n)[0] == '-' && ReadDigits(Itoa(n)[1..]) == -n
  {
    DigitsReadBack(if n < 0 then -n else n);
    if n < 0 { assert Itoa(n)[1..] == Digits(-n); }
  }

  /** `net.JoinHostPort` of an address and a port number. */
  function JoinHostPort(host: string, port: int): string {
    if ':' in host then "[" + host + "]:" + Itoa(port) else host + ":" + Itoa(port)
  }

  predicate UsablePort(p: EndpointPort) {
    p.name.Some? && p.port.Some? && p.port.value != 0
  }

  predicate UsableEndpoint(node: Node, e: EndpointInfo) {
    e.addresses != [] && node.ipv6 == node.isIPv6(e.addresses[0])
  }

  /** `isLocal`, with the test for a missing node name. */
  predicate IsLocal(node: Node, e: EndpointInfo) {
    e.nodeName.Some? && |node.hostname| > 0 && e.nodeName.value == node.hostname
  }

  /** That a service port has an endpoint, and whether this copy of it is on the proxy's node. */
  datatype Fact = Fact(port: ServicePortName, endpoint: string, isLocal: bool)

  function FactOf(node: Node, svc: NamespacedName, p: EndpointPort, e: EndpointInfo): Fact
    requires UsablePort(p) && UsableEndpoint(node, e)
  {
    Fact(ServicePortName(svc, p.name.value, p.protocol), JoinHostPort(e.addresses[0], p.port.value), IsLocal(node, e))
  }

  /** Everything a list of ports and a list of endpoints say, regardless of order. */
  ghost function Facts(node: Node, svc: NamespacedName, ports: seq<EndpointPort>,
                       endpoints: seq<EndpointInfo>): set<Fact> {
    set p, e | p in ports && e in endpoints && UsablePort(p) && UsableEndpoint(node, e) :: FactOf(node, svc, p, e)
  }

  ghost function InfoFacts(node: Node, svc: NamespacedName, info: SliceInfo): set<Fact> {
    Facts(node, svc, info.ports, info.endpoints)
  }

  ghost function SliceFacts(node: Node, svc: NamespacedName, slice: Slice): set<Fact> {
    Facts(node, svc, slice.ports, ConvertAll(slice.endpoints))
  }

  /** Everything a collection of cached slices says about one service. */
  ghost function AllFacts(node: Node, svc: NamespacedName, infos: map<string, SliceInfo>): set<Fact> {
    set name, f | name in infos && f in InfoFacts(node, svc, infos[name]) :: f
  }

  /** The cached form says what the slice says. */
  lemma InfoSaysWhatSliceSays(node: Node, svc: NamespacedName, slice: Slice, info: SliceInfo)
    requires IsInfoOf(slice, false, info)
    ensures InfoFacts(node, svc, info) == SliceFacts(node, svc, slice)
  {
    SameMembers(info.ports, slice.ports);
    SameMembers(info.endpoints, ConvertAll(slice.endpoints));
  }

  lemma SameMembers<T>(a: seq<T>, b: seq<T>)
    requires multiset(a) == multiset(b)
    ensures forall x :: x in a <==> x in b
  {
    assert forall x :: x in a <==> x in multiset(a);
    assert forall x :: x in b <==> x in multiset(b);
  }
}
