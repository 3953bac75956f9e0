/** Touch spots: the pointer ids a touch event leaves on screen for its
    display. The bucket is rebuilt from the event's own pointers: every
    pointer of the event, except the one leaving on POINTER_UP, and none at
    all once the gesture ends with UP or CANCEL. */
module TouchSpots {
  import opened InputTypes

  /** The pointer at index `i` is still down after `action`. */
  predicate StaysDown(action: Action, i: int) {
    action != Up && action != Cancel && !(action.PointerUp? && action.index == i)
  }

  function SpotsAfter(action: Action, pointers: seq<PointerCoords>): set<int> {
    set i | 0 <= i < |pointers| && StaysDown(action, i) :: pointers[i].id
  }

  /** The spot ids of one event, gathered pointer by pointer. */
  method ComputeSpotIds(action: Action, pointers: seq<PointerCoords>) returns (ids: set<int>)
    ensures ids == SpotsAfter(action, pointers)
  {
    ids := {};
    if action == Up || action == Cancel {
      return;
    }
    var i := 0;
    while i < |pointers|
      invariant 0 <= i <= |pointers|
      invariant ids == set k | 0 <= k < i && StaysDown(action, k) :: pointers[k].id
    {
      if StaysDown(action, i) {
        ids := ids + {pointers[i].id};
      }
      i := i + 1;
    }
  }

  /** Pointer ids of one event are distinct. */
  predicate DistinctIds(pointers: seq<PointerCoords>) {
    forall i, j :: 0 <= i < j < |pointers| ==> pointers[i].id != pointers[j].id
  }

  /** A POINTER_UP removes the spot of exactly the pointer that leaves; the
      other pointers of the event keep theirs. */
  lemma PointerUpRemovesItsSpot(pointers: seq<PointerCoords>, k: nat)
    requires k < |pointers| && DistinctIds(pointers)
    ensures SpotsAfter(PointerUp(k), pointers) == SpotsAfter(Move, pointers) - {pointers[k].id}
  {
    var left := SpotsAfter(PointerUp(k), pointers);
    var all := SpotsAfter(Move, pointers);
    forall id | id in all - {pointers[k].id}
      ensures id in left
    {
      var i :| 0 <= i < |pointers| && pointers[i].id == id;
      assert i != k;
      assert StaysDown(PointerUp(k), i);
    }
    forall id | id in left
      ensures id in all - {pointers[k].id}
    {
      var i :| 0 <= i < |pointers| && StaysDown(PointerUp(k), i) && pointers[i].id == id;
      assert i != k;
      assert StaysDown(Move, i);
    }
  }

  function PointerIds(pointers: seq<PointerCoords>): set<int> {
    set i | 0 <= i < |pointers| :: pointers[i].id
  }

  /** Distinct ids give one id per pointer. */
  lemma {:induction false} PointerIdsCount(pointers: seq<PointerCoords>)
    requires DistinctIds(pointers)
    ensures |PointerIds(pointers)| == |pointers|
  {
    if |pointers| > 0 {
      var last := |pointers| - 1;
      var init := pointers[..last];
      PointerIdsCount(init);
      forall id | id in PointerIds(pointers)
        ensures id in PointerIds(init) + {pointers[last].id}
      {
        var i :| 0 <= i < |pointers| && pointers[i].id == id;
        if i < last {
          assert init[i] == pointers[i];
        }
      }
      forall id | id in PointerIds(init)
        ensures id in PointerIds(pointers)
      {
        var i :| 0 <= i < |init| && init[i].id == id;
        assert pointers[i] == init[i];
      }
      assert PointerIds(pointers) == PointerIds(init) + {pointers[last].id};
      assert pointers[last].id !in PointerIds(init);
    }
  }

  /** A (pointer) down or a move keeps the spot of every pointer of the
      event: with distinct ids there are as many spots as pointers. */
  lemma DownKeepsEverySpot(action: Action, pointers: seq<PointerCoords>)
    requires action == Down || action.PointerDown? || action == Move
    requires DistinctIds(pointers)
    ensures SpotsAfter(action, pointers) == PointerIds(pointers)
    ensures |SpotsAfter(action, pointers)| == |pointers|
  {
    PointerIdsCount(pointers);
  }

  /** UP and CANCEL leave the bucket empty. */
  lemma GestureEndClearsSpots(action: Action, pointers: seq<PointerCoords>)
    requires action == Up || action == Cancel
    ensures SpotsAfter(action, pointers) == {}
  {
  }
}
