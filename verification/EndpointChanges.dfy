/** `EndpointSliceCache` and `EndpointsMap`: pending slices, checkout, and incremental application. */
module EndpointChanges {
  import opened Wrappers
  import opened EndpointSlices
  import opened EndpointGroups

  type Infos = map<string, SliceInfo>

  /** `endpointSliceTracker`. */
  datatype Tracker = Tracker(applied: Infos, pending: Infos)
  type Trackers = map<NamespacedName, Tracker>

  function TrackerOf(ts: Trackers, svc: NamespacedName): Tracker {
    if svc in ts then ts[svc] else Tracker(map[], map[])
  }

  /** The applied slices once the pending ones are applied. */
  function Overlay(t: Tracker): Infos {
    map name | name in t.applied.Keys + t.pending.Keys && !(name in t.pending && t.pending[name].remove) ::
      if name in t.pending then t.pending[name] else t.applied[name]
  }

  /** `endpointSliceCacheKeys`: the service and slice name, unless one of them is missing. */
  function CacheKeys(slice: Slice): Option<(NamespacedName, string)> {
    if slice.service.None? || slice.service.value == "" || slice.namespace == "" || slice.name == "" then None
    else Some((NamespacedName(slice.namespace, slice.service.value), slice.name))
  }

  /** `esInfoChanged`. */
  predicate EsInfoChanged(t: Tracker, name: string, info: SliceInfo) {
    if name in t.pending then info != t.pending[name]
    else if name in t.applied then info != t.applied[name]
    else !info.remove
  }

  function UpdatePending(ts: Trackers, svc: NamespacedName, name: string, info: SliceInfo): Trackers {
    var t := TrackerOf(ts, svc);
    ts[svc := if EsInfoChanged(t, name, info) then t.(pending := t.pending[name := info]) else t]
  }

  function Commit(ts: Trackers): (r: Trackers)
    ensures r.Keys == ts.Keys
  {
    map svc | svc in ts :: if ts[svc].pending == map[] then ts[svc] else Tracker(Overlay(ts[svc]), map[])
  }

  /** `endpointsChange` of one service. */
  datatype Change = Change(svc: NamespacedName, previous: EndpointsMap, current: EndpointsMap)

  /** `unmerge(previous)` followed by `merge(current)`. */
  function ApplyChange(em: EndpointsMap, c: Change): EndpointsMap {
    (em - c.previous.Keys) + c.current
  }

  function ApplyAll(em: EndpointsMap, cs: seq<Change>): EndpointsMap {
    if cs == [] then em else ApplyChange(ApplyAll(em, cs[..|cs| - 1]), cs[|cs| - 1])
  }

  /** `c` is a change that `checkoutChanges` can report for a tracker. */
  ghost predicate IsChangeOf(node: Node, t: Tracker, c: Change) {
    && Agrees(c.previous, AllFacts(node, c.svc, t.applied))
    && Agrees(c.current, AllFacts(node, c.svc, Overlay(t))) && MapSourced(node, c.current, Overlay(t))
  }

  ghost predicate DistinctServices(cs: seq<Change>) {
    forall i, j :: 0 <= i < j < |cs| ==> cs[i].svc != cs[j].svc
  }

  /** One change for every service with pending slices, in any order. */
  ghost predicate CheckedOut(node: Node, ts: Trackers, cs: seq<Change>) {
    && DistinctServices(cs)
    && (forall i :: 0 <= i < |cs| ==>
        cs[i].svc in ts && ts[cs[i].svc].pending != map[] && IsChangeOf(node, ts[cs[i].svc], cs[i]))
    && (forall svc :: svc in ts && ts[svc].pending != map[] ==> HasChange(cs, svc))
  }

  ghost predicate HasChange(cs: seq<Change>, svc: NamespacedName) {
    exists i :: 0 <= i < |cs| && cs[i].svc == svc
  }

  class EndpointSliceCache {
    const node: Node
    var trackers: Trackers

    constructor (node: Node)
      ensures this.node == node && trackers == map[]
    {
      this.node := node;
      trackers := map[];
    }

    /** `EndpointSliceUpdate`, through `updatePending`. */
    method EndpointSliceUpdate(slice: Slice, remove: bool) returns (changed: bool, ghost info: SliceInfo)
      requires !slice.addressType.FQDN? && CacheKeys(slice).Some? ==> PortsComparable(slice.ports)
      modifies this
      ensures slice.addressType.FQDN? || CacheKeys(slice).None? ==> !changed && trackers == old(trackers)
      ensures !slice.addressType.FQDN? && CacheKeys(slice).Some? ==>
                var (svc, name) := CacheKeys(slice).value;
                && IsInfoOf(slice, remove, info)
                && trackers == UpdatePending(old(trackers), svc, name, info)
                && changed == EsInfoChanged(TrackerOf(old(trackers), svc), name, info)
    {
      changed := false;
      info := SliceInfo([], [], remove);
      if slice.addressType.FQDN? {
        return;
      }
      var keys := CacheKeys(slice);
      if keys.None? {
        return;
      }
      var svc, name := keys.value.0, keys.value.1;
      var esInfo := NewEndpointSliceInfo(slice, remove);
      info := esInfo;
      if svc !in trackers {
        trackers := trackers[svc := Tracker(map[], map[])];
      }
      changed := EsInfoChanged(trackers[svc], name, esInfo);
      if changed {
        trackers := trackers[svc := trackers[svc].(pending := trackers[svc].pending[name := esInfo])];
      }
    }

    /** Applies the pending slices of one service, in any order. */
    method CommitService(t: Tracker) returns (r: Tracker)
      ensures r == Tracker(Overlay(t), map[])
    {
      var applied := t.applied;
      var rest := t.pending.Keys;
      while rest != {}
        invariant rest <= t.pending.Keys
        invariant forall name :: name in rest || name !in t.pending ==>
                    (name in applied <==> name in t.applied) && (name in applied ==> applied[name] == t.applied[name])
        invariant forall name :: name !in rest && name in t.pending ==>
                    (name in applied <==> !t.pending[name].remove)
                        && (name in applied ==> applied[name] == t.pending[name])
        decreases rest
      {
        var name :| name in rest;
        if t.pending[name].remove {
          applied := applied - {name};
        } else {
          applied := applied[name := t.pending[name]];
        }
        rest := rest - {name};
      }
      assert applied == Overlay(t);
      r := Tracker(applied, map[]);
    }

    /** The change of one service with pending slices, and its tracker afterwards. */
    method CheckoutService(svc: NamespacedName, t: Tracker) returns (change: Change, committed: Tracker)
      ensures change.svc == svc && IsChangeOf(node, t, change)
      ensures committed == Tracker(Overlay(t), map[])
    {
      var previous := GetEndpointsMap(node, svc, t.applied);
      committed := CommitService(t);
      var current := GetEndpointsMap(node, svc, committed.applied);
      change := Change(svc, previous, current);
    }

    /** Reports one change for every service with pending slices and marks them as applied. */
    method CheckoutChanges() returns (changes: seq<Change>)
      modifies this
      ensures CheckedOut(node, old(trackers), changes)
      ensures trackers == Commit(old(trackers))
    {
      changes := [];
      ghost var before := trackers;
      var rest := trackers.Keys;
      assert before - rest == map[];
      while rest != {}
        invariant rest <= before.Keys == trackers.Keys
        invariant forall svc :: svc in rest ==> trackers[svc] == before[svc]
        invariant forall svc :: svc in before && svc !in rest ==> trackers[svc] == Commit(before)[svc]
        invariant CheckedOut(node, before - rest, changes)
        decreases rest
      {
        var svc :| svc in rest;
        var t := trackers[svc];
        if t.pending != map[] {
          var change, committed := CheckoutService(svc, t);
          trackers := trackers[svc := committed];
          CheckedOutMore(node, before, rest, changes, change);
          changes := changes + [change];
        } else {
          CheckedOutIdle(node, before, rest, changes, svc);
        }
        rest := rest - {svc};
      }
      assert before - rest == before;
    }
  }

  lemma CheckedOutMore(node: Node, ts: Trackers, rest: set<NamespacedName>, cs: seq<Change>, c: Change)
    requires rest <= ts.Keys && c.svc in rest && CheckedOut(node, ts - rest, cs)
    requires ts[c.svc].pending != map[] && IsChangeOf(node, ts[c.svc], c)
    ensures CheckedOut(node, ts - (rest - {c.svc}), cs + [c])
  {
    var done, more := ts - rest, ts - (rest - {c.svc});
    StillHas(cs, c, ts.Keys);
    forall i | 0 <= i < |cs| ensures cs[i].svc in more && more[cs[i].svc] == done[cs[i].svc] && cs[i].svc != c.svc {
      assert cs[i].svc in done;
    }
    forall svc | svc in more && more[svc].pending != map[] ensures HasChange(cs + [c], svc) {
      assert svc != c.svc ==> svc in done && done[svc] == more[svc];
    }
  }

  lemma CheckedOutIdle(node: Node, ts: Trackers, rest: set<NamespacedName>, cs: seq<Change>, idle: NamespacedName)
    requires rest <= ts.Keys && idle in rest && CheckedOut(node, ts - rest, cs) && ts[idle].pending == map[]
    ensures CheckedOut(node, ts - (rest - {idle}), cs)
  {
    var done, more := ts - rest, ts - (rest - {idle});
    forall i | 0 <= i < |cs| ensures cs[i].svc in more && more[cs[i].svc] == done[cs[i].svc] {
      assert cs[i].svc in done;
    }
    forall svc | svc in more && more[svc].pending != map[] ensures HasChange(cs, svc) {
      assert svc in done && done[svc] == more[svc];
    }
  }

  lemma StillHas(cs: seq<Change>, c: Change, services: set<NamespacedName>)
    ensures forall svc :: svc in services && HasChange(cs, svc) ==> HasChange(cs + [c], svc)
    ensures HasChange(cs + [c], c.svc)
  {
    assert (cs + [c])[|cs|] == c;
    forall svc | svc in services && HasChange(cs, svc) ensures HasChange(cs + [c], svc) {
      var i :| 0 <= i < |cs| && cs[i].svc == svc;
      assert (cs + [c])[i].svc == svc;
    }
  }
}
