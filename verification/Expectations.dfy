/** `UIDTrackingControllerExpectations` for one controller key, as a step system. The UID store is used
    under a lock; the counters are not, so `ExpectCreations` and `CreationObserved` may come between any
    two steps of a locked operation. */
module Expectations {
  import opened Wrappers

  /** `ControlleeExpectations`; `version` tells the objects stored under one key apart. */
  datatype Expectation = Expectation(version: nat, add: int, del: int)

  predicate Fulfilled(e: Expectation) { e.add <= 0 && e.del <= 0 }

  /** Who holds the UID store's lock, and how far that operation has come. */
  datatype Holder =
    | Free
    | Storing(count: nat)                          // ExpectDeletions, UIDs stored
    | Lowering(uid: string, found: Option<nat>)    // DeletionObserved, expectation looked up
    | Removing(uid: string)                        // DeletionObserved, counter lowered
    | Forgetting                                   // DeleteExpectations, expectation deleted

  /** What was asked for last. `exact` holds from a completed `ExpectDeletions` until anything but
      observations follows, `creating` from an `ExpectCreations` until its object is replaced or deleted;
      `created` counts the creations observed on that object. */
  datatype History = History(exact: bool, expected: set<string>, observed: set<string>,
                             creating: bool, adds: int, created: nat)

  datatype Tracker = Tracker(exp: Option<Expectation>, uids: Option<set<string>>, holder: Holder, versions: nat,
                             history: History)

  const NEW := Tracker(None, None, Free, 0, History(false, {}, {}, false, 0, 0))

  datatype Step =
    | ExpectCreations(adds: int)
    | CreationObserved(version: nat)
    | BeginExpectDeletions(keys: set<string>)
    | StoreDeletions
    | BeginDeletionObserved(key: string)
    | LowerDeletions
    | RemoveUID
    | BeginDeleteExpectations
    | ForgetUIDs

  /** `SetExpectations`: a new object replaces the old one. */
  function Set(t: Tracker, add: int, del: int): Tracker {
    t.(exp := Some(Expectation(t.versions, add, del)), versions := t.versions + 1)
  }

  /** `LowerExpectations` on an object looked up earlier: lost if that object has been replaced. */
  function Lower(t: Tracker, version: nat, add: int, del: int): Tracker {
    if t.exp.Some? && t.exp.value.version == version
    then t.(exp := Some(t.exp.value.(add := t.exp.value.add - add, del := t.exp.value.del - del)))
    else t
  }

  function Outstanding(t: Tracker): set<string> { if t.uids.Some? then t.uids.value else {} }

  function Loosen(t: Tracker): Tracker { t.(history := t.history.(exact := false)) }

  /** A creation observed on the stored object is counted. */
  function Count(t: Tracker, version: nat): Tracker {
    if t.exp.Some? && t.exp.value.version == version
    then t.(history := t.history.(created := t.history.created + 1)) else t
  }

  /** One step; a step that has to wait for the lock changes nothing. */
  function Next(t: Tracker, s: Step): Tracker {
    match s
    case ExpectCreations(adds) =>
      Set(t, adds, 0).(history := t.history.(exact := false, creating := true, adds := adds, created := 0))
    case CreationObserved(version) => Count(Lower(t, version, 1, 0), version)
    case BeginExpectDeletions(keys) =>
      if t.holder.Free? then Loosen(t.(uids := Some(keys), holder := Storing(|keys|))) else t
    case StoreDeletions =>
      if t.holder.Storing?
      then Set(t, 0, t.holder.count).(holder := Free, history := History(true, Outstanding(t), {}, false, 0, 0))
      else t
    case BeginDeletionObserved(key) =>
      if !t.holder.Free? then t
      else
        var seen := t.(history := t.history.(observed := t.history.observed + {key}));
        if key !in Outstanding(t) then seen
        else seen.(holder := Lowering(key, if t.exp.Some? then Some(t.exp.value.version) else None))
    case LowerDeletions =>
      if !t.holder.Lowering? then t
      else (if t.holder.found.Some? then Lower(t, t.holder.found.value, 0, 1) else t).(holder := Removing(t.holder.uid))
    case RemoveUID =>
      if t.holder.Removing? then t.(uids := Some(Outstanding(t) - {t.holder.uid}), holder := Free) else t
    case BeginDeleteExpectations =>
      if t.holder.Free?
      then Loosen(t.(exp := None, holder := Forgetting, history := t.history.(creating := false)))
      else t
    case ForgetUIDs =>
      if t.holder.Forgetting? then t.(uids := None, holder := Free) else t
  }

  function Run(t: Tracker, ss: seq<Step>): Tracker
    decreases |ss|
  {
    if ss == [] then t else Next(Run(t, ss[..|ss| - 1]), Last(ss))
  }

  // ------------------------------------------------------------------- invariant

  predicate Bounded(e: Option<Expectation>, n: int) { e.Some? ==> e.value.del <= n }

  /** The count of outstanding deletions never exceeds the outstanding UIDs when the lock is free. */
  predicate Inv(t: Tracker) {
    && (t.exp.Some? ==> t.exp.value.version < t.versions)
    && match t.holder
       case Free => Bounded(t.exp, |Outstanding(t)|)
       case Storing(count) => t.uids.Some? && count == |t.uids.value|
       case Lowering(uid, found) =>
         && uid in Outstanding(t)
         && (found.Some? ==> found.value < t.versions)
         && (Bounded(t.exp, 0)
             || (t.exp.Some? && found == Some(t.exp.value.version) && Bounded(t.exp, |Outstanding(t)|)))
       case Removing(uid) => uid in Outstanding(t) && Bounded(t.exp, |Outstanding(t)| - 1)
       case Forgetting => Bounded(t.exp, 0)
  }

  /** While `exact`, the outstanding UIDs are the expected ones not yet observed, and the counter is
      their number. */
  predicate Exact(t: Tracker) {
    t.history.exact ==>
      && t.exp.Some? && t.uids.Some? && t.exp.value.add <= 0
      && match t.holder
         case Free => Counts(t, t.history.expected - t.history.observed) && t.exp.value.del == |t.uids.value|
         case Lowering(uid, found) =>
           && Counts(t, t.history.expected - t.history.observed + {uid}) && t.exp.value.del == |t.uids.value|
           && uid in t.history.observed && found == Some(t.exp.value.version)
         case Removing(uid) =>
           && Counts(t, t.history.expected - t.history.observed + {uid}) && t.exp.value.del == |t.uids.value| - 1
           && uid in t.history.observed
         case _ => false
  }

  predicate Counts(t: Tracker, s: set<string>) { t.uids == Some(s) }

  lemma RemovingOne(s: set<string>, x: string)
    requires x in s
    ensures |s - {x}| == |s| - 1
  {
  }

  lemma NextKeepsInv(t: Tracker, s: Step)
    requires Inv(t)
    ensures Inv(Next(t, s))
  {
    if t.holder.Removing? {
      RemovingOne(Outstanding(t), t.holder.uid);
    }
    if t.holder.Lowering? && t.holder.uid in Outstanding(t) {
      RemovingOne(Outstanding(t), t.holder.uid);
    }
  }

  lemma ObservingKeepsExact(t: Tracker, key: string)
    requires Inv(t) && Exact(t)
    ensures Exact(Next(t, BeginDeletionObserved(key)))
  {
    var h := t.history;
    if h.exact && t.holder.Free? {
      var rest, seen := h.expected - h.observed, h.observed + {key};
      if key in rest {
        assert h.expected - seen + {key} == rest;
      } else {
        assert h.expected - seen == rest;
      }
    }
  }

  lemma RemovingKeepsExact(t: Tracker)
    requires Inv(t) && Exact(t)
    ensures Exact(Next(t, RemoveUID))
  {
    var h := t.history;
    if h.exact && t.holder.Removing? {
      var uid := t.holder.uid;
      assert h.expected - h.observed + {uid} - {uid} == h.expected - h.observed;
      RemovingOne(t.uids.value, uid);
    }
  }

  lemma StoringKeepsExact(t: Tracker)
    requires Inv(t) && Exact(t)
    ensures Exact(Next(t, StoreDeletions))
  {
    if t.holder.Storing? {
      assert t.uids.value - {} == t.uids.value;
    }
  }

  lemma NextKeepsExact(t: Tracker, s: Step)
    requires Inv(t) && Exact(t)
    ensures Exact(Next(t, s))
  {
    match s
    case BeginDeletionObserved(key) => ObservingKeepsExact(t, key);
    case RemoveUID => RemovingKeepsExact(t);
    case StoreDeletions => StoringKeepsExact(t);
    case _ =>
  }

  lemma {:induction false} RunKeeps(t: Tracker, ss: seq<Step>)
    requires Inv(t) && Exact(t)
    ensures Inv(Run(t, ss)) && Exact(Run(t, ss))
  {
    if ss != [] {
      RunKeeps(t, ss[..|ss| - 1]);
      NextKeepsInv(Run(t, ss[..|ss| - 1]), Last(ss));
      NextKeepsExact(Run(t, ss[..|ss| - 1]), Last(ss));
    }
  }

  /** In every run, whenever the lock is free: at most as many deletions are outstanding as UIDs, and
      exactly as many from each `ExpectDeletions` until anything but observations follows. */
  lemma DeletionsAreNeverOvercounted(ss: seq<Step>)
    ensures var t := Run(NEW, ss);
            t.holder.Free? && t.exp.Some? ==>
              && t.exp.value.del <= |Outstanding(t)|
              && (t.history.exact ==> t.exp.value.del == |Outstanding(t)|)
  {
    RunKeeps(NEW, ss);
  }

  predicate Observation(s: Step) {
    s.CreationObserved? || s.BeginDeletionObserved? || s.LowerDeletions? || s.RemoveUID?
  }

  lemma {:induction false} ObservationsKeepExpected(t: Tracker, ss: seq<Step>)
    requires t.history.exact
    requires forall i :: 0 <= i < |ss| ==> Observation(ss[i])
    ensures Run(t, ss).history.exact && Run(t, ss).history.expected == t.history.expected
    ensures t.history.observed <= Run(t, ss).history.observed
    ensures Run(t, ss).history.observed <= t.history.observed + Named(ss)
  {
    if ss != [] {
      var rest := ss[..|ss| - 1];
      ObservationsKeepExpected(t, rest);
      assert Named(rest) <= Named(ss);
      assert Observation(Last(ss));
      if Last(ss).BeginDeletionObserved? {
        assert Last(ss).key in Named(ss);
      }
    }
  }

  /** The keys some observation in a run is about. */
  function Named(ss: seq<Step>): set<string> {
    set i | 0 <= i < |ss| && ss[i].BeginDeletionObserved? :: ss[i].key
  }

  /** After `ExpectDeletions(keys)`, however observations of deletions (repeated, of other pods) and of
      creations interleave: whenever the lock is free, the expectations are fulfilled if and only if
      every key has been observed. In particular a key nobody observed keeps them unfulfilled. */
  lemma FulfilledOnlyByAllDeletions(before: seq<Step>, keys: set<string>, after: seq<Step>)
    requires Run(NEW, before).holder.Free?
    requires forall i :: 0 <= i < |after| ==> Observation(after[i])
    ensures var t := Run(Next(Next(Run(NEW, before), BeginExpectDeletions(keys)), StoreDeletions), after);
            && t.exp.Some? && t.history.expected == keys && t.history.observed <= Named(after)
            && (t.holder.Free? ==> (Fulfilled(t.exp.value) <==> keys <= t.history.observed))
            && (!(keys <= Named(after)) && t.holder.Free? ==> !Fulfilled(t.exp.value))
  {
    var t0 := Run(NEW, before);
    RunKeeps(NEW, before);
    var t1 := Next(t0, BeginExpectDeletions(keys));
    NextKeepsInv(t0, BeginExpectDeletions(keys));
    NextKeepsExact(t0, BeginExpectDeletions(keys));
    var t2 := Next(t1, StoreDeletions);
    NextKeepsInv(t1, StoreDeletions);
    NextKeepsExact(t1, StoreDeletions);
    RunKeeps(t2, after);
    ObservationsKeepExpected(t2, after);
    var t := Run(t2, after);
    if t.holder.Free? {
      NoneLeft(keys, t.history.observed);
    }
  }

  // ------------------------------------------------------------------- creations

  /** While `creating`, the counter of creations is what was asked for less what was observed, and no
      deletion is waited for. */
  predicate Creating(t: Tracker) {
    t.history.creating ==>
      t.exp.Some? && t.exp.value.add == t.history.adds - t.history.created && t.exp.value.del <= 0
  }

  lemma NextKeepsCreating(t: Tracker, s: Step)
    requires Creating(t)
    ensures Creating(Next(t, s))
  {
  }

  lemma {:induction false} RunKeepsCreating(t: Tracker, ss: seq<Step>)
    requires Creating(t)
    ensures Creating(Run(t, ss))
  {
    if ss != [] {
      RunKeepsCreating(t, ss[..|ss| - 1]);
      NextKeepsCreating(Run(t, ss[..|ss| - 1]), Last(ss));
    }
  }

  /** How many creations are observed on one object. */
  function CreationsSeen(ss: seq<Step>, version: nat): nat {
    if ss == [] then 0
    else CreationsSeen(ss[..|ss| - 1], version) + (if Last(ss) == CreationObserved(version) then 1 else 0)
  }

  lemma {:induction false} ObservationsCountCreations(t: Tracker, ss: seq<Step>, version: nat)
    requires t.history.creating && t.exp.Some? && t.exp.value.version == version
    requires forall i :: 0 <= i < |ss| ==> Observation(ss[i])
    ensures var u := Run(t, ss);
            && u.history.creating && u.history.adds == t.history.adds
            && u.history.created == t.history.created + CreationsSeen(ss, version)
            && u.exp.Some? && u.exp.value.version == version
  {
    if ss != [] {
      ObservationsCountCreations(t, ss[..|ss| - 1], version);
      assert Observation(Last(ss));
    }
  }

  /** After `ExpectCreations(adds)`, whatever deletion is in progress and however observations of creations,
      on this and on replaced objects, and of deletions interleave: the expectations are fulfilled if and only
      if at least so many creations were observed on the object stored then. */
  lemma FulfilledOnlyByAllCreations(before: seq<Step>, adds: int, after: seq<Step>)
    requires forall i :: 0 <= i < |after| ==> Observation(after[i])
    ensures var t0 := Run(NEW, before);
            var t := Run(Next(t0, ExpectCreations(adds)), after);
            t.exp.Some? && (Fulfilled(t.exp.value) <==> CreationsSeen(after, t0.versions) >= adds)
  {
    var t0 := Run(NEW, before);
    var t1 := Next(t0, ExpectCreations(adds));
    RunKeepsCreating(t1, after);
    ObservationsCountCreations(t1, after, t0.versions);
  }

  lemma NoneLeft(a: set<string>, b: set<string>)
    ensures |a - b| == 0 <==> a <= b
  {
    if a <= b {
      assert a - b == {};
    } else {
      var x :| x in a && x !in b;
      assert x in a - b;
    }
  }
}
