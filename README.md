# Furzknopf sound pool, modelled in Dafny

Furzknopf is an Android sound-board app. Its sound pool loads fifteen short
"regular" samples and one long "big" sample from the app's assets into the
platform audio engine, and plays a regular sample on every button press. The
IDs of the loaded regular samples sit in an anti-repetition queue. A play picks
one of the first five IDs, favouring the front, plays it and moves it to the
tail, so a sample just played waits at the back before it can come round
again.

The app has this logic three times, once per class, with small differences.
Each class becomes one Dafny module with one Dafny class. The class's fields are
the Java class's static fields. Because they are static, the Java class has
one copy of them that every instance shares, and `new` does not reset them. One
Dafny object stands for that single static state, and its constructor stands
for class initialisation (a null list and, where the class has one,
`mBigFartID` at -1), not for `new`:

- `Controller.SoundController` models `SoundController.java`: WAV assets, null
  guards, and round robin when fewer than five IDs are queued.
- `ControlFragment.SoundControlFragment` models `SoundControlFragment.java`: OGG
  assets, no null guards, plays ID 0 and leaves a short queue alone, and
  returns the total duration, in milliseconds, of the vibration pattern from
  `playBigFart`.
- `Activity.MainActivity` models `MainActivity.java`: no big sample, the loader
  queues the engine's IDs itself, the skip is computed inline as
  `(int) (r * r * 5)`, and a "no sound loaded" notice shows when the queue is
  empty.

The shared logic is written once, as functions and lemmas:

- `SelectionQueue`: one play (`MoveToTail`), runs of plays (`Played`,
  `After`), round robin, and the anti-repetition gap.
- `Skew`: the skewed skip.
- `Assets`: the asset names and the effect of an `IOException` on the load
  requests (`OpenedPrefix`).
- `LoadRouting`: where each load completion goes.

The null Java list reference is `None`, a `LinkedList` is a `seq<int>`, and
the `tempBigFartID` field of the loading `Runnable` whose listener is
registered is the field `pendingBigID`. A new `Runnable` starts with 0.

External collaborators become parameters:

- The asset store is a set `missing` of asset names whose `openFd` throws
  `IOException`.
- The audio engine's answer to a load request is an integer argument:
  `bigLoadId` for the long sample, and `engineIds` for MainActivity's fifteen
  requests.
- A play command to the engine is the method's `played` result.
- The random skip of `Utility.getMappedRandomInt(5, 2)` is an argument `drawn`
  in `[0, 5)`. MainActivity's uniform float is an argument `r` in `[0, 1)`.

Behaviour of the code worth knowing:

- Below five IDs only `SoundController` rotates the queue. The other two
  classes play ID 0 and leave the queue alone.
- Nothing rejects a second completion of the same sample. It is queued again.
- With exactly five IDs queued, a skip of 4 picks the tail, so one ID can play
  twice in a row (`ReplayPossibleWithFive`). What holds is `NoReplayWithinGap`:
  the next `|q| - 5` plays do not replay an ID that is queued only once, which
  is ten plays when all fifteen distinct IDs are loaded.

## Model

| member | source | states |
|---|---|---|
| SelectionQueue.MoveToTail | app/src/main/java/com/y0hy0h/furzknopf/SoundController.java:132-133 | removing the ID at index k and appending it keeps the length and the multiset of IDs, puts that ID at the tail, and keeps every other ID in its relative order |
| SelectionQueue.Played | app/src/main/java/com/y0hy0h/furzknopf/SoundController.java:132-139 | a run of plays plays one ID per play, and every ID played comes from the queue |
| SelectionQueue.After | app/src/main/java/com/y0hy0h/furzknopf/SoundController.java:132-133 | after any run of plays the queue is a permutation of the queue before it |
| SelectionQueue.RoundRobinPlays | app/src/main/java/com/y0hy0h/furzknopf/SoundController.java:124-133 | n plays with skip 0 play the first n IDs in queue order |
| SelectionQueue.RoundRobinRotates | app/src/main/java/com/y0hy0h/furzknopf/SoundController.java:124-133 | n plays with skip 0 rotate the first n IDs, in order, to the tail |
| SelectionQueue.RoundRobinFullCycle | app/src/main/java/com/y0hy0h/furzknopf/SoundController.java:124-133 | as many round-robin plays as there are IDs play every queued ID exactly once, in order, and restore the queue |
| SelectionQueue.NotPlayedBeforeReachingWindow | app/src/main/java/com/y0hy0h/furzknopf/SoundController.java:126-133 | an ID first found at index p is not played by the next p - 4 plays whose skips are below 5 |
| SelectionQueue.NoReplayWithinGap | app/src/main/java/com/y0hy0h/furzknopf/SoundController.java:126-133 | an ID that occurs once in the queue is not played again by any of the next queue length minus 5 plays |
| SelectionQueue.ReplayPossibleWithFive | app/src/main/java/com/y0hy0h/furzknopf/SoundController.java:127-133 | with exactly five IDs queued, two plays with skip 4 play the same ID twice in a row |
| Skew.SkipAmount | app/src/main/java/com/y0hy0h/furzknopf/MainActivity.java:171-173 | `(int) (r * r * 5)` for r in [0, 1) lies in [0, 5), so it is a valid index whenever five or more IDs are queued |
| Skew.SkipAmountMonotone | app/src/main/java/com/y0hy0h/furzknopf/MainActivity.java:171-173 | a larger draw never gives a smaller skip |
| Skew.SkewFavoursFront | app/src/main/java/com/y0hy0h/furzknopf/MainActivity.java:170-173 | draws below 0.44 give skip 0 and skip 4 needs a draw above 0.89, so skip 0 is more likely than skip 4 |
| Assets.TwoDigits | app/src/main/java/com/y0hy0h/furzknopf/SoundController.java:86 | `%02d` on a number below 100 gives exactly two characters; `TwoDigitsDecimal` states that they read back as the number |
| Assets.RegularAssetName | app/src/main/java/com/y0hy0h/furzknopf/SoundController.java:86 | `fart%02d.<ext>`: the name is `fart`, then `TwoDigits(i)` (the two digits of i), a dot, then the extension, 7 characters longer than the extension |
| Assets.BigAssetName | app/src/main/java/com/y0hy0h/furzknopf/SoundController.java:90 | `fart_big.<ext>`: 9 characters longer than the extension, with an underscore at index 4, where a regular name has its first digit |
| Assets.RegularNames | app/src/main/java/com/y0hy0h/furzknopf/SoundController.java:85-86 | fifteen regular asset names, the j-th being `fart%02d.<ext>` for i = j + 1 |
| Assets.LoadOrder | app/src/main/java/com/y0hy0h/furzknopf/SoundController.java:85-90 | sixteen requests: the fifteen regular names in loop order, then `fart_big.<ext>` |
| Assets.OpenedPrefix | app/src/main/java/com/y0hy0h/furzknopf/SoundController.java:83-93 | the requests made are a prefix of the load order, all openable, and when they stop early the next asset is one that throws |
| Assets.OpenedPrefixSplit | app/src/main/java/com/y0hy0h/furzknopf/SoundController.java:83-93 | when the first j assets open, the requests are those j followed by the requests of the rest |
| Assets.RegularAssetNameInjective | app/src/main/java/com/y0hy0h/furzknopf/SoundController.java:86 | two-digit zero padding gives distinct names to distinct numbers |
| Assets.LoadOrderDistinct | app/src/main/java/com/y0hy0h/furzknopf/SoundController.java:85-90 | no asset is requested twice, and the big name differs from every regular one |
| Assets.TwoDigitsDecimal | app/src/main/java/com/y0hy0h/furzknopf/SoundController.java:86 | the two characters `%02d` writes for a number below 100 are decimal digits and read back, in base ten, as that number |
| Assets.RegularNamesListed | app/src/main/java/com/y0hy0h/furzknopf/SoundController.java:85-86 | the j-th regular name is `fart`, then the j-th entry of the literal list `RegularNumbers` (`01` to `15`), then `.<ext>`: exactly `fart01.<ext>` to `fart15.<ext>`, in loop order |
| Assets.RegularNumbersFormatted | app/src/main/java/com/y0hy0h/furzknopf/SoundController.java:85-86 | `%02d` writes the numbers 1 to 15 as the literal strings `01` to `15` |
| LoadRouting.Complete | app/src/main/java/com/y0hy0h/furzknopf/SoundController.java:75-79 | a completion of the pending big ID sets the big ID to it and leaves the queue alone; any other completion appends its ID to the tail of the queue and leaves the big ID alone, so queued IDs are never removed or reordered; `CompleteAllEffect` and `WithoutCount` give the full effect of a run |
| LoadRouting.CompleteAll | app/src/main/java/com/y0hy0h/furzknopf/SoundController.java:74-79 | a run of completions only appends to the queue, at most one ID per completion |
| LoadRouting.CompleteAllEffect | app/src/main/java/com/y0hy0h/furzknopf/SoundController.java:74-79 | a run of completions appends every non-big ID exactly once in arrival order, and the big slot takes the big ID exactly when it arrives |
| LoadRouting.WithoutCount | app/src/main/java/com/y0hy0h/furzknopf/SoundController.java:74-79 | the queue grows by the number of completions whose ID differs from the big load ID |
| LoadRouting.CompletionOrderIrrelevant | app/src/main/java/com/y0hy0h/furzknopf/SoundController.java:72-81 | completions arriving in any order queue the same multiset of IDs and set the same big ID |
| LoadRouting.AllLoadsComplete | app/src/main/java/com/y0hy0h/furzknopf/SoundController.java:74-79 | when every load completes once, in any order, the queue holds exactly the IDs other than the big one, as a multiset, so |ids| - 1 of them, and the big sample is loaded |
| Controller.SoundController.constructor | app/src/main/java/com/y0hy0h/furzknopf/SoundController.java:19-22 | no queue (null) and mBigFartID is -1 |
| Controller.SoundController.InitAndLoadSounds | app/src/main/java/com/y0hy0h/furzknopf/SoundController.java:27-32 | a fresh empty queue, then the WAV requests, with mBigFartID unchanged |
| Controller.SoundController.LoadSounds | app/src/main/java/com/y0hy0h/furzknopf/SoundController.java:65-96 | requests `fart01.wav`..`fart15.wav` and `fart_big.wav` up to the first IOException; the listener's big ID is the engine's answer to the big request, or 0 when it was never made |
| Controller.SoundController.OnLoadComplete | app/src/main/java/com/y0hy0h/furzknopf/SoundController.java:74-79 | a completion equal to the big load ID sets mBigFartID and leaves the queue; any other is appended once; status is ignored; only the regular branch needs the queue |
| Controller.SoundController.FreeResources | app/src/main/java/com/y0hy0h/furzknopf/SoundController.java:101-108 | the queue ends null; mBigFartID becomes -1 when there was a queue and is untouched otherwise, so a second call changes nothing |
| Controller.SoundController.GetRegularSoundsLoaded | app/src/main/java/com/y0hy0h/furzknopf/SoundController.java:110-116 | the queue length, 0 when there is no queue |
| Controller.SoundController.PlayRegularFart | app/src/main/java/com/y0hy0h/furzknopf/SoundController.java:122-140 | on a non-empty queue, plays the ID at the drawn skip (five or more queued) or the head (fewer) and moves it to the tail: the index is in bounds and the new queue is `MoveToTail` of the old |
| Controller.SoundController.BigFartLoaded | app/src/main/java/com/y0hy0h/furzknopf/SoundController.java:188-190 | true exactly when mBigFartID is not -1 |
| ControlFragment.SoundControlFragment.constructor | app/src/main/java/com/y0hy0h/furzknopf/SoundControlFragment.java:25-28 | no queue (null) and mBigFartID is -1 |
| ControlFragment.SoundControlFragment.OnCreate | app/src/main/java/com/y0hy0h/furzknopf/SoundControlFragment.java:42-46 | a fresh empty queue, then the OGG requests |
| ControlFragment.SoundControlFragment.LoadSounds | app/src/main/java/com/y0hy0h/furzknopf/SoundControlFragment.java:79-112 | requests `fart01.ogg`..`fart15.ogg` and `fart_big.ogg` up to the first IOException, and records the big load ID only when its request was made |
| ControlFragment.SoundControlFragment.OnLoadComplete | app/src/main/java/com/y0hy0h/furzknopf/SoundControlFragment.java:90-95 | the big completion sets mBigFartID, any other ID is appended once |
| ControlFragment.SoundControlFragment.OnDestroy | app/src/main/java/com/y0hy0h/furzknopf/SoundControlFragment.java:124-127 | the queue ends null and mBigFartID is -1, so BigFartLoaded becomes false |
| ControlFragment.SoundControlFragment.GetRegularSoundsLoaded | app/src/main/java/com/y0hy0h/furzknopf/SoundControlFragment.java:130-132 | exactly the queue length (the queue must exist) |
| ControlFragment.SoundControlFragment.PlayRegularFart | app/src/main/java/com/y0hy0h/furzknopf/SoundControlFragment.java:140-158 | with five or more queued, plays the ID at the skip and moves it to the tail; with fewer, plays ID 0 and leaves the queue unchanged |
| ControlFragment.SoundControlFragment.PlayBigFart | app/src/main/java/com/y0hy0h/furzknopf/SoundControlFragment.java:166-188 | plays mBigFartID and returns exactly the sum of the pause and vibration phases of the pattern |
| ControlFragment.SoundControlFragment.BigFartLoaded | app/src/main/java/com/y0hy0h/furzknopf/SoundControlFragment.java:190-192 | true exactly when mBigFartID is not -1 |
| Activity.MainActivity.constructor | app/src/main/java/com/y0hy0h/furzknopf/MainActivity.java:30 | no queue (null) |
| Activity.MainActivity.OnStart | app/src/main/java/com/y0hy0h/furzknopf/MainActivity.java:67-69 | a fresh queue holding the engine's IDs for the requests made, in request order |
| Activity.MainActivity.LoadSounds | app/src/main/java/com/y0hy0h/furzknopf/MainActivity.java:106-125 | requests `fart01.ogg`..`fart15.ogg` up to the first IOException and appends one engine ID per request made, in loop order |
| Activity.MainActivity.OnStop | app/src/main/java/com/y0hy0h/furzknopf/MainActivity.java:131-135 | the queue is cleared and ends null |
| Activity.MainActivity.PlayFart | app/src/main/java/com/y0hy0h/furzknopf/MainActivity.java:164-187 | with five or more queued, plays the ID at `SkipAmount(r)` and moves it to the tail; with 1 to 4, plays ID 0 and changes nothing; with none, also shows the notice |

## Left out

- SoundPool construction and the API-level branches. These are platform wrappers and have no logic of their own.
- Releasing the engine (`mSoundPool.release()`). The engine is outside the model.
- Vibrator calls, Toasts, menus, touch listeners and the volume-control stream. These are UI and device glue.
- The background thread and listener registration. Completions are modelled as calls in a given order. Concurrency is therefore not captured, including the race in which a completion arrives before `tempBigFartID` has been assigned, and MainActivity's loader appending to a list that `onStop` has nulled.
- Float pitch (`Utility.getFloatBetween`, `mRandom.nextFloat() * 0.75f + 0.75f`). The pitch only goes to the engine's play call.
- SoundController.playBigFart (both overloads). They play mBigFartID and return `(long) (3813 / freq)`, which is float arithmetic.
- ControlFragment.SoundControlFragment.PlayBigFart: the two phases `(long) (55 * freq)` and `(long) (3758 / freq)` are taken as given naturals, and only "total = sum of phases" is stated. The sum cannot overflow a Java long for the values these floats produce.
- Skew.SkipAmount: modelled on exact reals, not 32-bit floats. Float rounding keeps `r * r * 5` below 5 for every float r below 1, so the bound is the same.
- `Utility.getMappedRandomInt` is not part of this model. Its result is the argument `drawn`, assumed to lie in [0, 5) as the formula in MainActivity gives.
- Sample IDs are unbounded integers. No arithmetic is done on them, so 32-bit width does not matter.
- MainActivity's `mRandom` field: the random source is the argument `r`.
- The exceptions the Java throws on a null or empty list are not modelled; the methods require the state that the lifecycle guarantees. `requires loadedSoundIDs.Some?` on SoundController.PlayRegularFart (the NullPointerException at SoundController.java line 127 after `freeResources`), on SoundControlFragment's OnDestroy, GetRegularSoundsLoaded and PlayRegularFart, on MainActivity's LoadSounds, OnStop and PlayFart, and on the regular branch of both OnLoadComplete methods excludes the NullPointerException those methods throw when the list is null (for example SoundControlFragment.java lines 125, 131 and 145, MainActivity.java lines 133 and 169). The list is created in onCreate, onStart or initAndLoadSounds (SoundController.java line 30) before any of them can run, and SoundController's callers, which are not part of this model, are taken not to play after `freeResources` has nulled the list (line 105). `|loadedSoundIDs.value| >= 1` on SoundController.PlayRegularFart excludes the exception from `remove(0)` on an empty list (SoundController.java line 132); the method's own comment says it assumes at least one file is loaded (line 120).
- Logging (`Log.v`, `Log.e`). Logging has no effect on the state. `Log.e` is the only report of an `IOException` during loading (SoundController.java line 92, SoundControlFragment.java line 108, MainActivity.java line 121); the model shows the exception only through the requests that stop (`OpenedPrefix`).
