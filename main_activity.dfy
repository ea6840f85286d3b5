/** MainActivity: the first version of the sound pool, without a long sample.
    The loader queues the engine's ID for each request itself, and the skip
    is computed inline from a uniform draw. */
module Activity {
  import opened Wrappers
  import opened SelectionQueue
  import opened Skew
  import opened Assets

  class MainActivity {
    /** mLoadedSoundIDs; None while the static reference is null. */
    var loadedSoundIDs: Option<seq<int>>

    /** The static field before onStart. */
    constructor ()
      ensures loadedSoundIDs == None
    {
      loadedSoundIDs := None;
    }

    /** The sound part of onStart: a new, empty queue, then the loads. */
    method OnStart(missing: set<string>, engineIds: seq<int>) returns (requested: seq<string>)
      requires |engineIds| == RegularCount
      modifies this`loadedSoundIDs
      ensures requested == OpenedPrefix(RegularNames(Ogg), missing)
      ensures loadedSoundIDs == Some(engineIds[..|requested|])
    {
      loadedSoundIDs := Some([]);
      requested := LoadSounds(missing, engineIds);
      assert [] + engineIds[..|requested|] == engineIds[..|requested|];
    }

    /** Requests fart01.ogg .. fart15.ogg and queues the ID the engine returns
        for each (engineIds[k] for the k-th request), stopping at the first
        asset that cannot be opened. */
    method LoadSounds(missing: set<string>, engineIds: seq<int>) returns (requested: seq<string>)
      requires loadedSoundIDs.Some?
      requires |engineIds| == RegularCount
      modifies this`loadedSoundIDs
      ensures requested == OpenedPrefix(RegularNames(Ogg), missing)
      ensures loadedSoundIDs == Some(old(loadedSoundIDs).value + engineIds[..|requested|])
    {
      var names := RegularNames(Ogg);
      requested := [];
      var i := 1;
      ghost var before := loadedSoundIDs.value;
      assert before + engineIds[..0] == before;
      while i <= RegularCount
        invariant 1 <= i <= RegularCount + 1
        invariant requested == names[..i - 1]
        invariant forall k :: 0 <= k < |requested| ==> requested[k] !in missing
        invariant loadedSoundIDs.Some? && loadedSoundIDs.value == before + engineIds[..i - 1]
      {
        var pathToSound := RegularAssetName(i, Ogg);
        assert pathToSound == names[i - 1];
        if pathToSound in missing {
          OpenedPrefixStops(names, missing, requested);
          return;
        }
        requested := requested + [pathToSound];
        TakeOneMore(names, i - 1);
        loadedSoundIDs := Some(loadedSoundIDs.value + [engineIds[i - 1]]);
        assert before + engineIds[..i] == before + engineIds[..i - 1] + [engineIds[i - 1]];
        i := i + 1;
      }
      assert names[..RegularCount] == names;
      OpenedPrefixAll(names, missing);
    }

    /** The sound part of onStop: empties and drops the queue. */
    method OnStop()
      requires loadedSoundIDs.Some?
      modifies this`loadedSoundIDs
      ensures loadedSoundIDs == None
    {
      loadedSoundIDs := Some([]);
      loadedSoundIDs := None;
    }

    /** Plays a sound for the uniform draw r. With Window or more IDs queued the
        ID at SkipAmount(r) is played and moved to the tail; with fewer the
        queue is left alone and ID 0 is played, and with none the
        "no sound loaded" notice is shown as well. */
    method PlayFart(r: real) returns (played: int, noSoundNotice: bool)
      requires loadedSoundIDs.Some?
      requires 0.0 <= r < 1.0
      modifies this`loadedSoundIDs
      ensures var q := old(loadedSoundIDs).value;
        if |q| >= Window then
          played == q[SkipAmount(r)] && loadedSoundIDs == Some(MoveToTail(q, SkipAmount(r)))
          && !noSoundNotice
        else
          played == 0 && loadedSoundIDs == old(loadedSoundIDs) && (noSoundNotice <==> q == [])
    {
      var nextSoundID := 0;
      noSoundNotice := false;
      if |loadedSoundIDs.value| >= Window {
        var randomNumber := r;
        randomNumber := randomNumber * randomNumber;
        var skipAmount := (randomNumber * 5.0).Floor;
        assert skipAmount == SkipAmount(r);
        var q := loadedSoundIDs.value;
        nextSoundID := q[skipAmount];
        loadedSoundIDs := Some(q[..skipAmount] + q[skipAmount + 1..]);
        loadedSoundIDs := Some(loadedSoundIDs.value + [nextSoundID]);
      } else if |loadedSoundIDs.value| == 0 {
        noSoundNotice := true;
      }
      played := nextSoundID;
    }
  }
}
