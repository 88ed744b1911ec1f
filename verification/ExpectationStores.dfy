/** The two stores of `UIDTrackingControllerExpectations`, updated in place. Each method, run without
    interruption, takes exactly the steps of `Expectations` for its key and leaves other keys alone. */
module ExpectationStores {
  import opened Wrappers
  import opened Expectations

  function Keys(s: seq<string>): set<string> { set x | x in s }

  /** The deleted keys as a set; a key given twice counts once. */
  method Collect(deletedKeys: seq<string>) returns (r: set<string>)
    ensures r == Keys(deletedKeys)
  {
    r := {};
    for i := 0 to |deletedKeys|
      invariant r == Keys(deletedKeys[..i])
    {
      r := r + {deletedKeys[i]};
    }
    assert deletedKeys[..|deletedKeys|] == deletedKeys;
  }

  class UIDTrackingControllerExpectations {
    var expectations: map<string, Expectation>
    var uidStore: map<string, set<string>>
    var versions: map<string, nat>
    ghost var histories: map<string, History>

    ghost function View(key: string): Tracker
      reads this
    {
      Tracker(if key in expectations then Some(expectations[key]) else None,
              if key in uidStore then Some(uidStore[key]) else None,
              Free,
              if key in versions then versions[key] else 0,
              if key in histories then histories[key] else NEW.history)
    }

    constructor ()
      ensures forall key :: View(key) == NEW
    {
      expectations, uidStore, versions, histories := map[], map[], map[], map[];
    }

    method SetExpectations(key: string, add: int, del: int)
      modifies this`expectations, this`versions
      ensures View(key) == Set(old(View(key)), add, del)
      ensures forall k :: k != key ==> View(k) == old(View(k))
    {
      var version := if key in versions then versions[key] else 0;
      expectations := expectations[key := Expectation(version, add, del)];
      versions := versions[key := version + 1];
    }

    method LowerExpectations(key: string, add: int, del: int)
      modifies this`expectations
      ensures View(key) ==
              if key in old(expectations) then Lower(old(View(key)), old(expectations)[key].version, add, del)
              else old(View(key))
      ensures forall k :: k != key ==> View(k) == old(View(k))
    {
      if key in expectations {
        var e := expectations[key];
        expectations := expectations[key := e.(add := e.add - add, del := e.del - del)];
      }
    }

    method ExpectCreations(key: string, adds: int)
      modifies this
      ensures View(key) == Next(old(View(key)), Step.ExpectCreations(adds))
      ensures View(key).exp.Some? && View(key).exp.value.add == adds && View(key).exp.value.del == 0
      ensures forall k :: k != key ==> View(k) == old(View(k))
    {
      ghost var history := View(key).history;
      SetExpectations(key, adds, 0);
      histories := histories[key := history.(exact := false, creating := true, adds := adds, created := 0)];
    }

    method CreationObserved(key: string)
      modifies this`expectations, this`histories
      ensures View(key) ==
              if key in old(expectations)
              then Next(old(View(key)), Step.CreationObserved(old(expectations)[key].version))
              else old(View(key))
      ensures forall k :: k != key ==> View(k) == old(View(k))
    {
      ghost var history := View(key).history;
      LowerExpectations(key, 1, 0);
      histories := histories[key := if key in expectations then history.(created := history.created + 1) else history];
    }

    method ExpectDeletions(key: string, deletedKeys: seq<string>)
      modifies this
      ensures View(key) == Run(old(View(key)), [BeginExpectDeletions(Keys(deletedKeys)), StoreDeletions])
      ensures View(key).exp.Some? && View(key).exp.value.del == |Keys(deletedKeys)|
              && View(key).uids == Some(Keys(deletedKeys))
      ensures forall k :: k != key ==> View(k) == old(View(k))
    {
      var expectedUIDs := Collect(deletedKeys);
      uidStore := uidStore[key := expectedUIDs];
      assert forall k :: k != key ==> View(k) == old(View(k));
      SetExpectations(key, 0, |expectedUIDs|);
      histories := histories[key := History(true, expectedUIDs, {}, false, 0, 0)];
      TwoSteps(old(View(key)), BeginExpectDeletions(Keys(deletedKeys)), StoreDeletions);
    }

    method DeletionObserved(key: string, deleteKey: string)
      modifies this
      ensures View(key) == Run(old(View(key)), [BeginDeletionObserved(deleteKey), LowerDeletions, RemoveUID])
      ensures forall k :: k != key ==> View(k) == old(View(k))
    {
      ghost var history := View(key).history;
      if key in uidStore && deleteKey in uidStore[key] {
        LowerExpectations(key, 0, 1);
        uidStore := uidStore[key := uidStore[key] - {deleteKey}];
      }
      histories := histories[key := history.(observed := history.observed + {deleteKey})];
      ThreeSteps(old(View(key)), BeginDeletionObserved(deleteKey), LowerDeletions, RemoveUID);
    }

    method DeleteExpectations(key: string)
      modifies this
      ensures View(key) == Run(old(View(key)), [BeginDeleteExpectations, ForgetUIDs])
      ensures forall k :: k != key ==> View(k) == old(View(k))
    {
      ghost var history := View(key).history;
      if key in expectations {
        expectations := expectations - {key};
      }
      if key in uidStore {
        uidStore := uidStore - {key};
      }
      histories := histories[key := history.(exact := false, creating := false)];
      TwoSteps(old(View(key)), BeginDeleteExpectations, ForgetUIDs);
    }

    /** A controller is synced when it has no expectations, or they are fulfilled or expired: after
        `ExpectDeletions` and observations alone, exactly when every expected deletion was observed; after
        `ExpectCreations`, exactly when as many creations were. */
    method SatisfiedExpectations(key: string, expired: bool) returns (r: bool)
      ensures Exact(View(key)) && View(key).history.exact && !expired ==>
                (r <==> View(key).history.expected <= View(key).history.observed)
      ensures Creating(View(key)) && View(key).history.creating && !expired ==>
                (r <==> View(key).history.created >= View(key).history.adds)
      ensures r <==> View(key).exp.None? || Fulfilled(View(key).exp.value) || expired
    {
      NoneLeft(View(key).history.expected, View(key).history.observed);
      r := key !in expectations || Fulfilled(expectations[key]) || expired;
    }
  }

  lemma TwoSteps(t: Tracker, a: Step, b: Step)
    ensures Run(t, [a, b]) == Next(Next(t, a), b)
  {
    assert [a, b][..1] == [a] && [a][..0] == [];
    assert Run(t, [a]) == Next(t, a);
  }

  lemma ThreeSteps(t: Tracker, a: Step, b: Step, c: Step)
    ensures Run(t, [a, b, c]) == Next(Next(Next(t, a), b), c)
  {
    assert [a, b, c][..2] == [a, b];
    TwoSteps(t, a, b);
  }
}
