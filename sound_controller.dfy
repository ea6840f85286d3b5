/** SoundController: the static sound-pool state shared by every instance,
    its loader, its completion listener, the regular-sound selection and the
    teardown. */
module Controller {
  import opened Wrappers
  import opened SelectionQueue
  import opened LoadRouting
  import opened Assets

  class SoundController {
    /** mLoadedSoundIDs: the anti-repetition queue; None while the static
        reference is null. */
    var loadedSoundIDs: Option<seq<int>>
    /** mBigFartID: the long sample's ID, NotLoaded until its load completes. */
    var bigFartID: int
    /** tempBigFartID of the loading Runnable whose completion listener is
        registered: 0 until the long sample's load has been requested. */
    var pendingBigID: int

    /** The static fields before any initialisation. */
    constructor ()
      ensures loadedSoundIDs == None && bigFartID == NotLoaded && pendingBigID == 0
    {
      loadedSoundIDs := None;
      bigFartID := NotLoaded;
      pendingBigID := 0;
    }

    /** A new, empty queue, then the loads. mBigFartID is left as it was. */
    method InitAndLoadSounds(missing: set<string>, bigLoadId: int) returns (requested: seq<string>)
      modifies this`loadedSoundIDs, this`pendingBigID
      ensures loadedSoundIDs == Some([])
      ensures requested == OpenedPrefix(LoadOrder(Wav), missing)
      ensures pendingBigID == if |requested| == RegularCount + 1 then bigLoadId else 0
    {
      loadedSoundIDs := Some([]);
      requested := LoadSounds(missing, bigLoadId);
    }

    /** Requests fart01.wav .. fart15.wav and then fart_big.wav from the engine,
        stopping at the first asset that cannot be opened (`missing`). The
        engine answers the long sample's request with bigLoadId, which the new
        listener remembers. */
    method LoadSounds(missing: set<string>, bigLoadId: int) returns (requested: seq<string>)
      modifies this`pendingBigID
      ensures requested == OpenedPrefix(LoadOrder(Wav), missing)
      ensures pendingBigID == if |requested| == RegularCount + 1 then bigLoadId else 0
    {
      var order := LoadOrder(Wav);
      pendingBigID := 0;
      requested := [];
      var i := 1;
      while i <= RegularCount
        invariant 1 <= i <= RegularCount + 1
        invariant requested == order[..i - 1]
        invariant forall k :: 0 <= k < |requested| ==> requested[k] !in missing
        invariant pendingBigID == 0
      {
        var pathToSound := RegularAssetName(i, Wav);
        assert pathToSound == order[i - 1];
        if pathToSound in missing {
          OpenedPrefixStops(order, missing, requested);
          return;
        }
        requested := requested + [pathToSound];
        TakeOneMore(order, i - 1);
        i := i + 1;
      }
      if BigAssetName(Wav) in missing {
        OpenedPrefixStops(order, missing, requested);
        return;
      }
      requested := requested + [BigAssetName(Wav)];
      pendingBigID := bigLoadId;
      TakeOneMore(order, RegularCount);
      assert order[..RegularCount + 1] == order;
      OpenedPrefixAll(order, missing);
    }

    /** The completion listener. A completion of the long sample never touches
        the queue, so only a regular completion needs the queue to exist. */
    method OnLoadComplete(sampleId: int, status: int)
      requires sampleId == pendingBigID || loadedSoundIDs.Some?
      modifies this`loadedSoundIDs, this`bigFartID
      ensures old(loadedSoundIDs).Some? ==>
        loadedSoundIDs.Some? &&
        Registry(loadedSoundIDs.value, bigFartID)
          == Complete(Registry(old(loadedSoundIDs).value, old(bigFartID)), pendingBigID, sampleId)
      ensures old(loadedSoundIDs).None? ==> loadedSoundIDs == None && bigFartID == sampleId
    {
      if sampleId == pendingBigID {
        bigFartID := sampleId;
      } else {
        loadedSoundIDs := Some(loadedSoundIDs.value + [sampleId]);
      }
    }

    /** Empties and drops the queue and forgets the long sample; a no-op once
        the queue is gone. */
    method FreeResources()
      modifies this`loadedSoundIDs, this`bigFartID
      ensures loadedSoundIDs == None
      ensures bigFartID == if old(loadedSoundIDs).Some? then NotLoaded else old(bigFartID)
    {
      if loadedSoundIDs.Some? {
        loadedSoundIDs := Some([]);
        loadedSoundIDs := None;
        bigFartID := NotLoaded;
      }
    }

    /** The number of queued regular IDs, 0 when there is no queue. */
    method GetRegularSoundsLoaded() returns (n: nat)
      ensures loadedSoundIDs.Some? ==> n == |loadedSoundIDs.value|
      ensures loadedSoundIDs.None? ==> n == 0
    {
      if loadedSoundIDs.Some? {
        n := |loadedSoundIDs.value|;
      } else {
        n := 0;
      }
    }

    /** Selects and plays a regular sound. With Window or more IDs queued the
        ID at the drawn skip is played, otherwise the head (round robin); the
        played ID goes to the tail. `drawn` is the value of
        Utility.getMappedRandomInt(5, 2), which is only used in the first case. */
    method PlayRegularFart(drawn: nat) returns (played: int)
      requires loadedSoundIDs.Some? && |loadedSoundIDs.value| >= 1
      requires drawn < Window
      modifies this`loadedSoundIDs
      ensures var q := old(loadedSoundIDs).value;
        var skip := if |q| >= Window then drawn else 0;
        skip < |q| && played == q[skip] && loadedSoundIDs == Some(MoveToTail(q, skip))
    {
      var skipAmount := 0;
      if |loadedSoundIDs.value| >= Window {
        skipAmount := drawn;
      }
      var q := loadedSoundIDs.value;
      var nextSoundID := q[skipAmount];
      loadedSoundIDs := Some(q[..skipAmount] + q[skipAmount + 1..]);
      loadedSoundIDs := Some(loadedSoundIDs.value + [nextSoundID]);
      played := nextSoundID;
    }

    /** Whether the long sample is loaded. */
    method BigFartLoaded() returns (loaded: bool)
      ensures loaded <==> bigFartID != NotLoaded
    {
      loaded := bigFartID != NotLoaded;
    }
  }
}
