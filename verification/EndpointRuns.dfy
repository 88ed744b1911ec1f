/** Whole runs of the slice tracker: any interleaving of slice events and syncs. */
module EndpointRuns {
  import opened EndpointSlices
  import opened EndpointGroups
  import opened EndpointChanges
  import opened EndpointUpdates

  datatype Proxy = Proxy(trackers: Trackers, em: EndpointsMap)

  /** A slice event carries the cached form chosen for it, a sync the changes in the order they were
      checked out, so that runs cover every sort and every map iteration order. */
  datatype Event =
    | SliceEvent(slice: Slice, remove: bool, info: SliceInfo)
    | SyncEvent(changes: seq<Change>)

  predicate Ignored(slice: Slice) {
    slice.addressType.FQDN? || CacheKeys(slice).None?
  }

  ghost predicate Next(node: Node, s: Proxy, e: Event, t: Proxy) {
    match e
    case SliceEvent(slice, remove, info) =>
      if Ignored(slice) then t == s
      else
        var (svc, name) := CacheKeys(slice).value;
        IsInfoOf(slice, remove, info) && t == s.(trackers := UpdatePending(s.trackers, svc, name, info))
    case SyncEvent(changes) =>
      CheckedOut(node, s.trackers, changes) && t == Proxy(Commit(s.trackers), ApplyAll(s.em, changes))
  }

  ghost predicate IsRun(node: Node, es: seq<Event>, states: seq<Proxy>) {
    && |states| == |es| + 1
    && states[0] == Proxy(map[], map[])
    && forall i :: 0 <= i < |es| ==> Next(node, states[i], es[i], states[i + 1])
  }

  /** Slices as the API shows them, by service label and name. */
  type Live = map<(NamespacedName, string), Slice>

  /** What an event does to the live slices. */
  function LiveStep(live: Live, e: Event): Live {
    if e.SyncEvent? || Ignored(e.slice) then live
    else if e.remove then live - {CacheKeys(e.slice).value}
    else live[CacheKeys(e.slice).value := e.slice]
  }

  function LiveAfter(es: seq<Event>): Live {
    if es == [] then map[] else LiveStep(LiveAfter(es[..|es| - 1]), es[|es| - 1])
  }

  /** Everything the live slices of a service say. */
  ghost function LiveFacts(node: Node, live: Live, svc: NamespacedName): set<Fact> {
    set k, f | k in live && k.0 == svc && f in SliceFacts(node, svc, live[k]) :: f
  }

  /** Applied and pending slices together are the live slices. */
  ghost predicate TracksAt(t: Tracker, live: Live, svc: NamespacedName) {
    && (forall name :: name in t.applied ==> !t.applied[name].remove)
    && OverlayIs(Overlay(t), live, svc)
  }

  ghost predicate OverlayIs(o: Infos, live: Live, svc: NamespacedName) {
    && (forall name :: name in o <==> (svc, name) in live)
    && (forall name :: name in o ==> IsInfoOf(live[(svc, name)], false, o[name]))
  }

  ghost predicate Tracks(ts: Trackers, live: Live) {
    forall svc :: TracksAt(TrackerOf(ts, svc), live, svc)
  }

  /** A slice update does to the overlay what it does to the live slices. */
  lemma OverlayUpdated(t: Tracker, name: string, info: SliceInfo)
    requires forall n :: n in t.applied ==> !t.applied[n].remove
    ensures var r := if EsInfoChanged(t, name, info) then t.(pending := t.pending[name := info]) else t;
            Overlay(r) == if info.remove then Overlay(t) - {name} else Overlay(t)[name := info]
  {
  }

  lemma SliceKeepsTracking(t: Tracker, live: Live, svc: NamespacedName, slice: Slice, name: string, remove: bool,
                           info: SliceInfo)
    requires TracksAt(t, live, svc) && IsInfoOf(slice, remove, info)
    ensures TracksAt(if EsInfoChanged(t, name, info) then t.(pending := t.pending[name := info]) else t,
                     if remove then live - {(svc, name)} else live[(svc, name) := slice], svc)
  {
    OverlayUpdated(t, name, info);
    if remove {
      OverlayRemoved(Overlay(t), live, svc, name);
    } else {
      OverlayAdded(Overlay(t), live, svc, name, slice, info);
    }
  }

  lemma OverlayRemoved(o: Infos, live: Live, svc: NamespacedName, name: string)
    requires OverlayIs(o, live, svc)
    ensures OverlayIs(o - {name}, live - {(svc, name)}, svc)
  {
  }

  lemma OverlayAdded(o: Infos, live: Live, svc: NamespacedName, name: string, slice: Slice, info: SliceInfo)
    requires OverlayIs(o, live, svc) && IsInfoOf(slice, false, info)
    ensures OverlayIs(o[name := info], live[(svc, name) := slice], svc)
  {
  }

  lemma OtherServiceUntouched(t: Tracker, live: Live, svc: NamespacedName, e: Event)
    requires TracksAt(t, live, svc)
    requires e.SliceEvent? && !Ignored(e.slice) ==> CacheKeys(e.slice).value.0 != svc
    ensures TracksAt(t, LiveStep(live, e), svc)
  {
    assert forall name :: (svc, name) in LiveStep(live, e) <==> (svc, name) in live;
    assert forall name :: (svc, name) in live ==> LiveStep(live, e)[(svc, name)] == live[(svc, name)];
  }

  lemma CommitKeepsTracking(t: Tracker, live: Live, svc: NamespacedName)
    requires TracksAt(t, live, svc)
    ensures TracksAt(if t.pending == map[] then t else Tracker(Overlay(t), map[]), live, svc)
  {
    var r := Tracker(Overlay(t), map[]);
    assert Overlay(r) == Overlay(t);
  }

  lemma NextKeepsTracking(node: Node, s: Proxy, e: Event, t: Proxy, live: Live)
    requires Tracks(s.trackers, live) && Next(node, s, e, t)
    ensures Tracks(t.trackers, LiveStep(live, e))
  {
    forall svc ensures TracksAt(TrackerOf(t.trackers, svc), LiveStep(live, e), svc) {
      var before := TrackerOf(s.trackers, svc);
      assert TracksAt(before, live, svc);
      if e.SyncEvent? {
        CommitKeepsTracking(before, live, svc);
      } else if Ignored(e.slice) || CacheKeys(e.slice).value.0 != svc {
        OtherServiceUntouched(before, live, svc, e);
      } else {
        SliceKeepsTracking(before, live, svc, e.slice, CacheKeys(e.slice).value.1, e.remove, e.info);
      }
    }
  }

  lemma NextKeepsInStep(node: Node, s: Proxy, e: Event, t: Proxy)
    requires InStep(node, s.trackers, s.em) && Next(node, s, e, t)
    ensures InStep(node, t.trackers, t.em)
  {
    if e.SyncEvent? {
      SyncKeepsInStep(node, s.trackers, s.em, e.changes);
    } else {
      forall port: ServicePortName ensures AgreesAt(t.em, port, AppliedFacts(node, t.trackers, port.service)) {
        assert AgreesAt(s.em, port, AppliedFacts(node, s.trackers, port.service));
        assert TrackerOf(t.trackers, port.service).applied == TrackerOf(s.trackers, port.service).applied;
      }
    }
  }

  lemma RunSplits(node: Node, es: seq<Event>, states: seq<Proxy>)
    requires IsRun(node, es, states) && es != []
    ensures IsRun(node, es[..|es| - 1], states[..|es|])
    ensures Next(node, states[|es| - 1], es[|es| - 1], states[|es|])
  {
    var n := |es| - 1;
    forall i | 0 <= i < n ensures Next(node, states[..|es|][i], es[..n][i], states[..|es|][i + 1]) {
      assert Next(node, states[i], es[i], states[i + 1]);
    }
  }

  /** In every run the tracker holds the live slices and the map is in step with the applied ones. */
  lemma {:induction false} RunInvariant(node: Node, es: seq<Event>, states: seq<Proxy>)
    requires IsRun(node, es, states)
    ensures Tracks(states[|es|].trackers, LiveAfter(es))
    ensures InStep(node, states[|es|].trackers, states[|es|].em)
  {
    if es == [] {
      forall svc: NamespacedName ensures AllFacts(node, svc, map[]) == {} {}
    } else {
      var n := |es| - 1;
      RunSplits(node, es, states);
      RunInvariant(node, es[..n], states[..|es|]);
      NextKeepsTracking(node, states[n], es[n], states[n + 1], LiveAfter(es[..n]));
      NextKeepsInStep(node, states[n], es[n], states[n + 1]);
    }
  }

  lemma TrackedFactsAreLive(node: Node, t: Tracker, live: Live, svc: NamespacedName)
    requires TracksAt(t, live, svc)
    ensures AllFacts(node, svc, Overlay(t)) == LiveFacts(node, live, svc)
  {
    var o := Overlay(t);
    forall f | f in AllFacts(node, svc, o) ensures f in LiveFacts(node, live, svc) {
      var name :| name in o && f in InfoFacts(node, svc, o[name]);
      InfoSaysWhatSliceSays(node, svc, live[(svc, name)], o[name]);
      assert (svc, name) in live && (svc, name).0 == svc;
    }
    forall f | f in LiveFacts(node, live, svc) ensures f in AllFacts(node, svc, o) {
      var k :| k in live && k.0 == svc && f in SliceFacts(node, svc, live[k]);
      assert k == (svc, k.1);
      InfoSaysWhatSliceSays(node, svc, live[k], o[k.1]);
    }
  }

  /** Right after any sync of any run, the map has exactly the service ports, the sorted endpoint strings
      and the local flags that the live slices give from scratch. */
  lemma SyncShowsLiveSlices(node: Node, es: seq<Event>, states: seq<Proxy>)
    requires IsRun(node, es, states) && es != [] && es[|es| - 1].SyncEvent?
    ensures forall port: ServicePortName :: AgreesAt(states[|es|].em, port,
                                                     LiveFacts(node, LiveAfter(es), port.service))
  {
    RunInvariant(node, es, states);
    RunSplits(node, es, states);
    var s, live := states[|es|], LiveAfter(es);
    forall port: ServicePortName ensures AgreesAt(s.em, port, LiveFacts(node, live, port.service)) {
      var t := TrackerOf(s.trackers, port.service);
      assert t.pending == map[];
      assert Overlay(t) == t.applied;
      assert TracksAt(t, live, port.service);
      TrackedFactsAreLive(node, t, live, port.service);
      assert AgreesAt(s.em, port, AppliedFacts(node, s.trackers, port.service));
    }
  }

  /** How often and when syncs happened in between, and every iteration order, do not show. */
  lemma SyncPlacementDoesNotShow(node: Node, es: seq<Event>, states: seq<Proxy>, fs: seq<Event>, others: seq<Proxy>)
    requires IsRun(node, es, states) && es != [] && es[|es| - 1].SyncEvent?
    requires IsRun(node, fs, others) && fs != [] && fs[|fs| - 1].SyncEvent?
    requires LiveAfter(es) == LiveAfter(fs)
    ensures states[|es|].em.Keys == others[|fs|].em.Keys
    ensures forall port :: port in states[|es|].em ==> Shape(states[|es|].em[port]) == Shape(others[|fs|].em[port])
  {
    SyncShowsLiveSlices(node, es, states);
    SyncShowsLiveSlices(node, fs, others);
    var a, b := states[|es|].em, others[|fs|].em;
    forall port ensures (port in a <==> port in b) && (port in a ==> Shape(a[port]) == Shape(b[port])) {
      SameAt(a, b, port, LiveFacts(node, LiveAfter(es), port.service));
    }
  }

  /** Sending a slice again with its endpoints and ports permuted reports no change and leaves the
      tracker as it is, before and after the slice is applied. */
  lemma ResendIsNoChange(ts: Trackers, a: Slice, b: Slice, remove: bool, x: SliceInfo, y: SliceInfo)
    requires Permuted(a, b) && KeysDistinguish(a) && CacheKeys(a).Some?
    requires IsInfoOf(a, remove, x) && IsInfoOf(b, remove, y)
    requires forall svc :: svc in ts ==> forall name :: name in ts[svc].applied ==> !ts[svc].applied[name].remove
    ensures CacheKeys(b) == CacheKeys(a)
    ensures var (svc, name) := CacheKeys(a).value;
            var sent := UpdatePending(ts, svc, name, x);
            && !EsInfoChanged(TrackerOf(sent, svc), name, y) && UpdatePending(sent, svc, name, y) == sent
            && !EsInfoChanged(TrackerOf(Commit(sent), svc), name, y)
                && UpdatePending(Commit(sent), svc, name, y) == Commit(sent)
  {
    InfoIsCanonical(a, b, remove, x, y);
    var (svc, name) := CacheKeys(a).value;
    var sent := UpdatePending(ts, svc, name, x);
    assert svc in sent && svc in Commit(sent);
    assert sent[svc := sent[svc]] == sent && Commit(sent)[svc := Commit(sent)[svc]] == Commit(sent);
  }
}
