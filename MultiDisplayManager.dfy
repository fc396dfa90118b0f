/**
 * The multi-display manager: the registry of secondary displays held in a
 * dictionary field that its methods update in place, the gameplay flag that
 * the last reset observed, and the counter standing for `Instantiate`.
 */
module MultiDisplay {
  import opened Optional
  import opened DisplaySlot
  import opened Registry

  class MultiDisplayManager {
    /** Number of physical displays, read once at startup. */
    const displayCount: int
    /** The scene's own vocal track, the fallback of `GetVocalTrack`. */
    const primaryVocalTrack: Handle
    /** `_activeDisplays`: one slot per secondary display. */
    var activeDisplays: Slots
    /** Whether the last reset found a game manager (`_gameManager != null`). */
    var inGameplay: bool
    /** The id the next instantiated engine object receives. */
    var nextId: nat

    /**
     * The key set is the one created at startup, every slot is well formed,
     * and every object a slot holds was instantiated by this manager (its id
     * lies between the scene's objects and the next free id).
     */
    ghost predicate Valid()
      reads this
    {
      && activeDisplays.Keys == DisplayKeys(displayCount)
      && WellFormedSlots(activeDisplays)
      && primaryVocalTrack.id < nextId
      && IdsWithin(activeDisplays, primaryVocalTrack.id, nextId)
    }

    /** `SingletonAwake`: one empty slot for each display `2..displayCount`. */
    constructor (displayCount: int, primaryVocalTrack: Handle)
      ensures Valid()
      ensures this.displayCount == displayCount && this.primaryVocalTrack == primaryVocalTrack
      ensures activeDisplays.Keys == DisplayKeys(displayCount)
      ensures forall n :: n in activeDisplays ==> activeDisplays[n] == Unallocated
      ensures !inGameplay
    {
      var slots: Slots := map[];
      var i := 2;
      while i <= displayCount
        invariant 2 <= i <= if displayCount < 2 then 2 else displayCount + 1
        invariant forall n :: n in slots <==> 2 <= n < i
        invariant forall n :: n in slots ==> slots[n] == Unallocated
      {
        slots := slots[i := Unallocated];
        i := i + 1;
      }
      this.displayCount := displayCount;
      this.primaryVocalTrack := primaryVocalTrack;
      activeDisplays := slots;
      inGameplay := false;
      nextId := primaryVocalTrack.id + 1;
    }

    /** `Instantiate`: a new engine object with a fresh id, as active as the original was. */
    method Instantiate(originalActive: bool) returns (h: Handle)
      modifies this`nextId
      ensures h == Handle(old(nextId), originalActive) && nextId == old(nextId) + 1
    {
      h := Handle(nextId, originalActive);
      nextId := nextId + 1;
    }

    /** The display numbers offered in the display dropdown: `1..displayCount`, in order. */
    method AddOptionsToDropdown() returns (list: seq<int>)
      ensures |list| == if displayCount < 1 then 0 else displayCount
      ensures forall i :: 0 <= i < |list| ==> list[i] == i + 1
      ensures Valid() ==> forall n :: n in activeDisplays <==> n in list && n != 1
    {
      list := [];
      var i := 1;
      while i <= displayCount
        invariant 1 <= i <= if displayCount < 1 then 1 else displayCount + 1
        invariant |list| == i - 1
        invariant forall j :: 0 <= j < |list| ==> list[j] == j + 1
      {
        list := list + [i];
        i := i + 1;
      }
      assert forall n :: n in list <==> 1 <= n <= displayCount by {
        forall n | 1 <= n <= displayCount ensures n in list { assert list[n - 1] == n; }
      }
    }

    /** The vocal track shown on a display: the scene's own for any display without a slot. */
    function GetVocalTrack(displayNumber: int): (r: Option<Handle>)
      reads this
      requires Valid()
      ensures r == Some(primaryVocalTrack) <==> displayNumber !in activeDisplays
      ensures displayNumber in activeDisplays ==> r == activeDisplays[displayNumber].vocalTrackObject
    {
      if displayNumber !in activeDisplays then Some(primaryVocalTrack)
      else
        var slot := activeDisplays[displayNumber];
        assert slot.vocalTrackObject.Some? ==> slot.vocalTrackObject.value.id in Ids(slot);
        assert SlotIdsWithin(slot, primaryVocalTrack.id, nextId);
        slot.vocalTrackObject
    }

    /** Show a display's UI, allocating its objects the first time. */
    method ConnectDisplayTo(displayNumber: int)
      requires Valid()
      modifies this`activeDisplays, this`nextId
      ensures Valid()
      ensures (activeDisplays, nextId) == ConnectIn(old(activeDisplays), displayNumber, inGameplay, old(nextId))
    {
      if displayNumber !in activeDisplays {
        return;
      }
      var activeDisplay := activeDisplays[displayNumber];
      ghost var before := activeDisplays;
      ghost var expected := Connect(activeDisplay, displayNumber, inGameplay, nextId);
      assert IdsWithin(before, primaryVocalTrack.id, nextId);
      if activeDisplay.displayObject.None? {
        var displayObject := Instantiate(true);
        var camera := Instantiate(true);
        activeDisplay := activeDisplay.(
          displayObject := Some(CanvasObject(displayObject, camera.id)),
          camera := Some(CameraObject(camera, displayNumber - 1)));
        if inGameplay {
          var trackView := Instantiate(true);
          var vocalTrack := Instantiate(primaryVocalTrack.active);
          activeDisplay := activeDisplay.(
            trackViewObject := Some(CanvasObject(trackView, camera.id)),
            vocalTrackObject := Some(vocalTrack.(active := false)));
        }
        assert Connected(activeDisplay, nextId) == expected;
        activeDisplays := activeDisplays[displayNumber := activeDisplay];
      } else {
        activeDisplays := activeDisplays[displayNumber := SetShown(activeDisplay, true)];
      }
    }

    /** Hide a display's UI without freeing anything; a no-op before its first connect. */
    method DisconnectDisplayTo(displayNumber: int)
      requires Valid()
      modifies this`activeDisplays
      ensures Valid()
      ensures activeDisplays == DisconnectIn(old(activeDisplays), displayNumber)
    {
      if displayNumber !in activeDisplays || activeDisplays[displayNumber].displayObject == None {
        return;
      }
      ghost var before := activeDisplays;
      assert IdsWithin(before, primaryVocalTrack.id, nextId);
      activeDisplays := activeDisplays[displayNumber := SetShown(activeDisplays[displayNumber], false)];
      assert activeDisplays == DisconnectIn(before, displayNumber);
    }

    /** A player joined a display (the platform's display activation is not modelled). */
    method ConnectPlayerToDisplay(playerDisplayNumber: int)
      requires Valid()
      modifies this`activeDisplays, this`nextId
      ensures Valid()
      ensures (activeDisplays, nextId) == ConnectIn(old(activeDisplays), playerDisplayNumber, inGameplay, old(nextId))
    {
      ConnectDisplayTo(playerDisplayNumber);
    }

    /** A player left a display. */
    method DisconnectPlayerFromDisplay(playerDisplayNumber: int)
      requires Valid()
      modifies this`activeDisplays
      ensures Valid()
      ensures activeDisplays == DisconnectIn(old(activeDisplays), playerDisplayNumber)
    {
      DisconnectDisplayTo(playerDisplayNumber);
    }

    /**
     * Re-derive every display's state from the roster (the display numbers
     * of the current players). The keys are visited in an unspecified order,
     * returned as `order`; the outcome per key does not depend on it.
     */
    method ResetTargetDisplays(gameManagerFound: bool, roster: seq<int>) returns (ghost order: seq<int>)
      requires Valid()
      modifies this`activeDisplays, this`nextId, this`inGameplay
      ensures Valid() && inGameplay == gameManagerFound
      ensures Distinct(order) && forall n :: n in order <==> n in old(activeDisplays)
      ensures (activeDisplays, nextId) == ReconcileAll(old(activeDisplays), order, roster, gameManagerFound, old(nextId))
      ensures ShownKeys(activeDisplays) == set n | n in activeDisplays && n in roster
      ensures forall n :: n in activeDisplays && n in roster ==>
        Shown(activeDisplays[n]) && (Allocated(old(activeDisplays)[n]) ==> SameHandles(activeDisplays[n], old(activeDisplays)[n]))
      ensures forall n :: n in activeDisplays && n !in roster ==>
        if Allocated(old(activeDisplays)[n]) then Hidden(activeDisplays[n]) && SameHandles(activeDisplays[n], old(activeDisplays)[n])
        else activeDisplays[n] == old(activeDisplays)[n]
    {
      inGameplay := gameManagerFound;
      var remaining := activeDisplays.Keys;
      order := [];
      while remaining != {}
        invariant Valid() && inGameplay == gameManagerFound
        invariant activeDisplays.Keys == old(activeDisplays).Keys
        invariant Distinct(order)
        invariant forall n :: n in order ==> n !in remaining
        invariant forall n :: n in old(activeDisplays) <==> n in order || n in remaining
        invariant (activeDisplays, nextId) == ReconcileAll(old(activeDisplays), order, roster, gameManagerFound, old(nextId))
        decreases remaining
      {
        var displayNumber :| displayNumber in remaining;
        if displayNumber in roster {
          ConnectDisplayTo(displayNumber);
        } else {
          DisconnectDisplayTo(displayNumber);
        }
        assert (order + [displayNumber])[..|order|] == order;
        order := order + [displayNumber];
        remaining := remaining - {displayNumber};
      }
      ReconcileAllEffect(old(activeDisplays), order, roster, gameManagerFound, old(nextId));
      ReconcileShowsExactlyRoster(old(activeDisplays), order, roster, gameManagerFound, old(nextId));
    }
  }

  /**
   * Three displays; players join and leave, and the registry is reset after
   * each change, as in the startup and join/leave flows of the game.
   */
  method ResetScenario(primary: Handle)
  {
    var manager := new MultiDisplayManager(3, primary);
    assert manager.activeDisplays.Keys == {2, 3};

    var _ := manager.ResetTargetDisplays(false, [2]);
    assert Shown(manager.activeDisplays[2]);
    assert manager.activeDisplays[3] == Unallocated;
    var second := manager.activeDisplays[2];

    var _ := manager.ResetTargetDisplays(false, [2, 3]);
    assert Shown(manager.activeDisplays[2]) && Shown(manager.activeDisplays[3]);
    assert SameHandles(manager.activeDisplays[2], second);

    var _ := manager.ResetTargetDisplays(false, [3]);
    assert Hidden(manager.activeDisplays[2]) && SameHandles(manager.activeDisplays[2], second);
    assert Shown(manager.activeDisplays[3]);

    assert manager.GetVocalTrack(99) == Some(primary);
  }
}
