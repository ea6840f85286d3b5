/** SoundControlFragment: the same static sound-pool state as SoundController,
    with OGG assets, no null guards, and a selection that leaves a short queue
    alone and plays ID 0. */
module ControlFragment {
  import opened Wrappers
  import opened SelectionQueue
  import opened LoadRouting
  import opened Assets

  class SoundControlFragment {
    /** mLoadedSoundIDs; None while the static reference is null. */
    var loadedSoundIDs: Option<seq<int>>
    /** mBigFartID; NotLoaded until the long sample's load completes. */
    var bigFartID: int
    /** tempBigFartID of the loading Runnable whose listener is registered. */
    var pendingBigID: int

    /** The static fields before onCreate. */
    constructor ()
      ensures loadedSoundIDs == None && bigFartID == NotLoaded && pendingBigID == 0
    {
      loadedSoundIDs := None;
      bigFartID := NotLoaded;
      pendingBigID := 0;
    }

    /** The sound part of onCreate: a new, empty queue, then the loads. */
    method OnCreate(missing: set<string>, bigLoadId: int) returns (requested: seq<string>)
      modifies this`loadedSoundIDs, this`pendingBigID
      ensures loadedSoundIDs == Some([])
      ensures requested == OpenedPrefix(LoadOrder(Ogg), missing)
      ensures pendingBigID == if |requested| == RegularCount + 1 then bigLoadId else 0
    {
      loadedSoundIDs := Some([]);
      requested := LoadSounds(missing, bigLoadId);
    }

    /** Requests fart01.ogg .. fart15.ogg and then fart_big.ogg, stopping at the
        first asset that cannot be opened; the engine answers the long
        sample's request with bigLoadId. */
    method LoadSounds(missing: set<string>, bigLoadId: int) returns (requested: seq<string>)
      modifies this`pendingBigID
      ensures requested == OpenedPrefix(LoadOrder(Ogg), missing)
      ensures pendingBigID == if |requested| == RegularCount + 1 then bigLoadId else 0
    {
      var order := LoadOrder(Ogg);
      pendingBigID := 0;
      requested := [];
      var i := 1;
      while i <= RegularCount
        invariant 1 <= i <= RegularCount + 1
        invariant requested == order[..i - 1]
        invariant forall k :: 0 <= k < |requested| ==> requested[k] !in missing
        invariant pendingBigID == 0
      {
        var pathToSound := RegularAssetName(i, Ogg);
        assert pathToSound == order[i - 1];
        if pathToSound in missing {
          OpenedPrefixStops(order, missing, requested);
          return;
        }
        requested := requested + [pathToSound];
        TakeOneMore(order, i - 1);
        i := i + 1;
      }
      if BigAssetName(Ogg) in missing {
        OpenedPrefixStops(order, missing, requested);
        return;
      }
      requested := requested + [BigAssetName(Ogg)];
      pendingBigID := bigLoadId;
      TakeOneMore(order, RegularCount);
      assert order[..RegularCount + 1] == order;
      OpenedPrefixAll(order, missing);
    }

    /** The completion listener: the long sample's completion fills the slot,
        any other is appended to the queue. */
    method OnLoadComplete(sampleId: int, status: int)
      requires sampleId == pendingBigID || loadedSoundIDs.Some?
      modifies this`loadedSoundIDs, this`bigFartID
      ensures old(loadedSoundIDs).Some? ==>
        loadedSoundIDs.Some? &&
        Registry(loadedSoundIDs.value, bigFartID)
          == Complete(Registry(old(loadedSoundIDs).value, old(bigFartID)), pendingBigID, sampleId)
      ensures old(loadedSoundIDs).None? ==> loadedSoundIDs == None && bigFartID == sampleId
    {
      if sampleId == pendingBigID {
        bigFartID := sampleId;
      } else {
        loadedSoundIDs := Some(loadedSoundIDs.value + [sampleId]);
      }
    }

    /** The sound part of onDestroy: empties and drops the queue and forgets
        the long sample. There is no null guard. */
    method OnDestroy()
      requires loadedSoundIDs.Some?
      modifies this`loadedSoundIDs, this`bigFartID
      ensures loadedSoundIDs == None && bigFartID == NotLoaded
    {
      loadedSoundIDs := Some([]);
      loadedSoundIDs := None;
      bigFartID := NotLoaded;
    }

    /** The number of queued regular IDs; the queue must exist. */
    method GetRegularSoundsLoaded() returns (n: nat)
      requires loadedSoundIDs.Some?
      ensures n == |loadedSoundIDs.value|
    {
      n := |loadedSoundIDs.value|;
    }

    /** Selects and plays a regular sound. With Window or more IDs queued the
        ID at the drawn skip is played and moved to the tail; with fewer the
        queue is left alone and ID 0 is played. */
    method PlayRegularFart(drawn: nat) returns (played: int)
      requires loadedSoundIDs.Some?
      requires drawn < Window
      modifies this`loadedSoundIDs
      ensures var q := old(loadedSoundIDs).value;
        if |q| >= Window then
          played == q[drawn] && loadedSoundIDs == Some(MoveToTail(q, drawn))
        else
          played == 0 && loadedSoundIDs == old(loadedSoundIDs)
    {
      var nextSoundID := 0;
      if |loadedSoundIDs.value| >= Window {
        var skipAmount := drawn;
        var q := loadedSoundIDs.value;
        nextSoundID := q[skipAmount];
        loadedSoundIDs := Some(q[..skipAmount] + q[skipAmount + 1..]);
        loadedSoundIDs := Some(loadedSoundIDs.value + [nextSoundID]);
      }
      played := nextSoundID;
    }

    /** Plays the long sample and returns the total duration, in
        milliseconds, of its vibration pattern: a pause while the recording is silent, then the vibration.
        The two phases are the truncated float results `(long) (55 * freq)`
        and `(long) (3758 / freq)`, taken as given. */
    method PlayBigFart(pausePhase: nat, vibratePhase: nat) returns (played: int, pattern: seq<nat>, total: nat)
      ensures played == bigFartID
      ensures pattern == [pausePhase, vibratePhase]
      ensures total == pattern[0] + pattern[1]
    {
      played := bigFartID;
      pattern := [pausePhase, vibratePhase];
      total := pattern[0] + pattern[1];
    }

    /** Whether the long sample is loaded. */
    method BigFartLoaded() returns (loaded: bool)
      ensures loaded <==> bigFartID != NotLoaded
    {
      loaded := bigFartID != NotLoaded;
    }
  }
}
