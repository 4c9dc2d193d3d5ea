# Keyframe animation interpreter — a Dafny model

The system plays a scripted timeline in a Unity scene. A timeline is a list
of keyframes. Each keyframe carries:

- an action code: 0 appear, 1 disappear, 2 move, 3 audio, 4 background;
- an actor type, a name and a timestamp in seconds;
- six raw float lists: the start/end position, rotation and scale;
- a duration, an animation clip name and a loop count.

At start-up the interpreter sorts the list by timestamp. On every frame it
dispatches, in list order, each keyframe whose timestamp the clock has
strictly passed, and advances a cursor past it. Appear, DisAppear and Move
work on a registry `gos` that maps names to the actors in the scene.

This project models that core in three modules.

- `KeyFrames` (keyframes.dfy) models `KeyFrame.cs`, as a class.
  - The constructor stores its arguments and leaves all six `b_*` flags down.
  - The six memoising getters are methods. Each changes only its own flag
    and cache. Each is proved against a function on values: `ReadVector`
    for the position and scale getters, `ReadRotation` for the rotation
    getters.
  - A getter's `ArgumentOutOfRangeException` is the `OutOfRange` outcome. It
    happens when the raw list has fewer than three elements.
  - The vector getters raise their flag before indexing the list. So a
    first access that fails leaves the flag up, and every later access
    returns the never-assigned default (0, 0, 0).
  - The rotation getters raise the flag after converting. A failed access
    therefore changes nothing.
  - Both behaviours are modelled as written and proved as lemmas.
  - Quaternion.Euler is symbolic: `Euler(x, y, z)`. Distinct angle triples
    are therefore distinct values, although in Unity `Euler(0, 0, 0)` and
    `Euler(360, 0, 0)` are the same rotation. No contract depends on this:
    rotations are only stored and compared as the getters returned them.
- `Timeline` (timeline.dfy) holds the scheduling side of `Interpreter.cs`,
  as functions and lemmas.
  - `Compare` is the sort comparator.
  - `SortFrames` is an insertion sort using that comparator.
  - `Drain` is the cursor the drain loop reaches at a given time.
  - `CursorAfter` and `Dispatched` follow a run of frames.
- `Interpreting` (interpreter.dfy) holds the `Interpreter` component as a
  class.
  - Its real state is the sorted keyframe list, the cursor `i`, the registry
    `gos`, the instantiation counter and the background texture.
  - Ghost state records what the engine was asked to do by Appear,
    DisAppear, Move, Audio and Background themselves: the Instantiate calls
    made by Appear (`spawned`), the Destroy calls made by DisAppear
    (`destroyed`), the coroutines started by Move and Audio (`tasks`), the
    `Debug.LogError` messages of Appear, DisAppear, Move and Background
    (`errors`), and the index of every keyframe whose handler was entered
    (`calls`). What the coroutines do once started, including the parts
    that run before their first `yield`, is not in these logs.
  - The class invariant `Valid` has three parts.
    - Registry: each name is bound to a distinct actor that was instantiated
      and not destroyed.
    - Dispatch log: handler calls come in index order, never beyond the
      cursor, and only for known codes.
    - The list is sorted.

An actor is an opaque handle: a fresh id plus the prefab it came from. The
engine clock `Time.time` is the `now` argument of `Update`. The set of
texture resource names is fixed when the interpreter is constructed.

Where the code behaves differently from what one might expect, the model
follows the code:

- A keyframe is due when the clock is strictly greater than its timestamp,
  not when it is greater or equal. A keyframe stamped exactly `now` waits
  (`StampAtNowWaits`).
- The comparator never returns 0, so the order of equal timestamps is not
  fixed. Only "sorted and a permutation" is promised, not a stable sort.
- Short vector lists are not rejected when the file is read. They fail
  lazily, in the getters.
- An exception from a getter inside Appear does not stay local to that
  keyframe. It leaves `Update` before the cursor moves, so the same keyframe
  is dispatched again on the next frame. `Update` reports this as `thrown`,
  and the `calls` log records the repeated entry.
- This version of the source has no wait/display mode, no subtitles and no
  dialog bubbles.

## Model

| member | source | states |
|---|---|---|
| KeyFrames.KeyFrame.constructor | Assets/Scripts/KeyFrame.cs:55-88 | every field equals its argument; all six flags are down and every cache still holds its default value |
| KeyFrames.KeyFrame.StartPosition | Assets/Scripts/KeyFrame.cs:90-101 | the new flag/cache pair and the result are those `ReadVector` gives for the old pair and `startpos`; only this getter's flag and cache may change |
| KeyFrames.KeyFrame.EndPosition | Assets/Scripts/KeyFrame.cs:103-114 | as StartPosition, over `endpos` and its own flag and cache |
| KeyFrames.KeyFrame.StartRotation | Assets/Scripts/KeyFrame.cs:116-127 | the new pair and the result are those `ReadRotation` gives for the old pair and `startrotation`; only its own flag and cache may change |
| KeyFrames.KeyFrame.EndRotation | Assets/Scripts/KeyFrame.cs:129-140 | as StartRotation, over `endrotation` |
| KeyFrames.KeyFrame.StartScale | Assets/Scripts/KeyFrame.cs:142-153 | as StartPosition, over `startscale` |
| KeyFrames.KeyFrame.EndScale | Assets/Scripts/KeyFrame.cs:155-166 | as StartPosition, over `endscale` |
| KeyFrames.VectorFlagSticks | Assets/Scripts/KeyFrame.cs:94-98 | after any vector access the flag is up; a flag that was up stays up with the same cached value |
| KeyFrames.RotationFlagSticks | Assets/Scripts/KeyFrame.cs:120-124 | a rotation flag is up after an access exactly when the access returned; a raised flag keeps its cached value |
| KeyFrames.FirstVectorRead | Assets/Scripts/KeyFrame.cs:94-99 | a first access returns the vector of the first three elements and ignores the rest; it fails exactly when the list has fewer than three |
| KeyFrames.FirstRotationRead | Assets/Scripts/KeyFrame.cs:120-125 | a first rotation access returns Euler of the first three elements; it fails exactly when the list has fewer than three |
| KeyFrames.VectorReadMemoises | Assets/Scripts/KeyFrame.cs:90-101 | once a vector access returned a value, a later access returns that value and changes nothing, whatever the list has become |
| KeyFrames.RotationReadMemoises | Assets/Scripts/KeyFrame.cs:116-127 | the same memoisation for rotations |
| KeyFrames.FailedVectorReadCachesZero | Assets/Scripts/KeyFrame.cs:94-99 | a first vector access on a short list fails but raises the flag, so the next access returns (0, 0, 0) |
| KeyFrames.FailedRotationReadRetries | Assets/Scripts/KeyFrame.cs:120-125 | a failed rotation access leaves the cache as it was, so the next access behaves like a first one |
| KeyFrames.RereadAfterListChange | Assets/Scripts/KeyFrame.cs:90-101 | reading StartPosition, replacing `startpos`, then reading again: a returned value is returned again; a short list fails and then yields (0, 0, 0) |
| Timeline.Compare | Assets/Scripts/Interpreter.cs:54-58 | the comparator never returns 0 and is negative exactly when the first timestamp is smaller |
| Timeline.CompareOnTies | Assets/Scripts/Interpreter.cs:54-58 | antisymmetric on distinct timestamps; on equal ones each keyframe is called greater than the other |
| Timeline.SortFrames | Assets/Scripts/Interpreter.cs:54-58 | the result is a permutation of the input with non-decreasing timestamps |
| Timeline.Drain | Assets/Scripts/Interpreter.cs:69 | the loop's stopping cursor lies between the start and the end; every keyframe it passes is stamped strictly before `now`; it stops at the end or at a keyframe stamped at or after `now` |
| Timeline.StampAtNowWaits | Assets/Scripts/Interpreter.cs:69 | a keyframe stamped exactly `now` is not dispatched |
| Timeline.DrainMonotone | Assets/Scripts/Interpreter.cs:69 | a later clock never stops the cursor earlier |
| Timeline.DrainCompose | Assets/Scripts/Interpreter.cs:67-92 | a tick at t1 followed by a tick at t2 >= t1 ends where a single tick at t2 would |
| Timeline.DrainStops | Assets/Scripts/Interpreter.cs:69-91 | any index before which all stamps are below `now` and at which the loop guard fails is the cursor Drain gives |
| Timeline.DrainLeavesFuture | Assets/Scripts/Interpreter.cs:54-69 | on a sorted list every keyframe from the new cursor on is stamped at or after `now` |
| Timeline.DrainCountsDue | Assets/Scripts/Interpreter.cs:54-92 | on a sorted list a tick advances the cursor by exactly the number of pending keyframes stamped before `now` |
| Timeline.DispatchedOnce | Assets/Scripts/Interpreter.cs:64-92 | over any run of ticks in which no Appear throws, the dispatched indices are exactly from the first cursor up to the last, each once, in increasing order |
| Timeline.TicksCatchUp | Assets/Scripts/Interpreter.cs:67-92 | with a clock that never goes back, a run of ticks in which no Appear throws reaches the cursor that one tick at the last time reaches |
| Interpreting.PrefabSelection | Assets/Scripts/Interpreter.cs:104-122 | type codes 0-3 pick the prefab they name; the result is `creeping` exactly for code 2 and for every code outside 0-3 |
| Interpreting.PrefabCodeRoundTrip | Assets/Scripts/Interpreter.cs:104-118 | each prefab is picked by its own type code |
| Interpreting.HandledIndices | Assets/Scripts/Interpreter.cs:72-89 | the handled indices of a range are exactly its indices with codes 0-4, in increasing order |
| Interpreting.CallLogExtended | Assets/Scripts/Interpreter.cs:67-92 | appending one Update's handler calls keeps the dispatch log in index order and within the cursor; an index repeats only for an Appear that threw |
| Interpreting.CallLogAppend | Assets/Scripts/Interpreter.cs:67-92 | a log followed by increasing calls between the old and the new cursor is still a valid dispatch log |
| Interpreting.AppearKeepsInvariant | Assets/Scripts/Interpreter.cs:123-125 | instantiating a new actor, and binding an unused name to it, keep every name bound to a distinct live actor |
| Interpreting.DisAppearKeepsInvariant | Assets/Scripts/Interpreter.cs:135-136 | destroying a registered actor and removing its name keep the registry invariant |
| Interpreting.Interpreter.constructor | Assets/Scripts/Interpreter.cs:28-64 | empty registry, cursor 0, no calls, and the class invariant holds |
| Interpreting.Interpreter.Start | Assets/Scripts/Interpreter.cs:41-59 | the keyframe list becomes a sorted permutation of the parsed list, and the class invariant holds |
| Interpreting.Interpreter.Appear | Assets/Scripts/Interpreter.cs:94-126 | duplicate name: reported and nothing else changes. Position or rotation failure: throws before Instantiate, with the caches the failed getter left. Otherwise: one actor of the selected prefab is instantiated at the values the getters returned, and the name is bound to it unless the scale throws. An unknown type is reported. The registry invariant is kept |
| Interpreting.Interpreter.Place | Assets/Scripts/Interpreter.cs:123-125 | the new actor gets a fresh id and the selected prefab, is instantiated at the given position and rotation with the scale the getter returned, and is bound to the name unless the scale getter threw; the registry invariant is kept |
| Interpreting.Interpreter.DisAppear | Assets/Scripts/Interpreter.cs:128-137 | a missing name is reported and nothing changes; otherwise its actor is destroyed and exactly that entry removed |
| Interpreting.Interpreter.Move | Assets/Scripts/Interpreter.cs:139-147 | a missing name is reported; otherwise one Animate task for the registered actor is started; the registry never changes |
| Interpreting.Interpreter.Audio | Assets/Scripts/Interpreter.cs:188-191 | exactly one DestroyAfterPlay task is started |
| Interpreting.Interpreter.Background | Assets/Scripts/Interpreter.cs:217-225 | the material's texture becomes the named resource, or none when it is missing, which is also reported |
| Interpreting.Interpreter.Dispatch | Assets/Scripts/Interpreter.cs:72-89 | code 0 has exactly Appear's effect, 1 DisAppear's, 2 Move's, 3 Audio's and 4 Background's, and each leaves the state the other handlers own unchanged; an unknown code changes nothing; the call is logged exactly for codes 0-4; only an Appear can throw (the background material is taken to be assigned), and then the registry is unchanged; registry names other than the keyframe's are untouched |
| Interpreting.Interpreter.Step | Assets/Scripts/Interpreter.cs:71-90 | one pass of the loop body: the keyframe at the cursor gets the effect of the handler its code selects, the call is logged, and the cursor advances by one unless the handler threw |
| Interpreting.Interpreter.DispatchDue | Assets/Scripts/Interpreter.cs:69-91 | the cursor only moves forward, past keyframes stamped before `now`; it stops at the end, at a keyframe not yet due, or on an Appear that threw; the log gains the handled indices in order |
| Interpreting.Interpreter.Update | Assets/Scripts/Interpreter.cs:67-92 | keeps the class invariant. Without an exception, the cursor lands exactly on `Drain` of the old cursor and everything after it is still in the future. With one, the cursor rests on a due Appear. The log gains the handled indices, and the throwing Appear's index when there is one |

## Left out

- Reading the file and parsing the JSON in Start are not modelled: `Start` takes the parsed list. The source logs when parsing gives null but then dereferences it anyway; that path is not modelled either.
- The Unity life cycle is not modelled: `Start` runs before the first `Update`, and `Update` is called once per rendered frame with `Time.time` as `now`.
- `float` is modelled as `real`, without rounding.
- The body of the `Animate` coroutine is not modelled: the interpolation loop over `duration`, the DragonBones `Play` call and the `IS_3D_MODE` switch. `Move` records only that the coroutine was started, for that actor and keyframe. Because of this, the end getters (`EndPosition`, `EndRotation`, `EndScale`) have no caller in the model.
- LerpUtility is not part of this model.
- The body of the `DestroyAfterPlay` coroutine is not modelled: loading the clip, instantiating the audio container, the wait of `clip.length * loop`, and `loop == -1` meaning forever. `Audio` records only that the coroutine was started.
- Instantiate, Destroy and `Resources.Load` are engine calls. Actors are opaque handles, and a texture resource exists exactly when its name is in `textures`. Unassigned (null) Inspector fields are not modelled: the four prefabs and the background material `bkgmat`. With `bkgmat` unassigned, `SetTexture` in Background would throw out of `Update` before the cursor moves, so that keyframe would be retried on every frame. The model takes it to be assigned, which is why `Dispatch` and `SwitchEffect` say that only Appear can throw.
- Exceptions escaping a coroutine are not modelled, because Unity logs them without returning to `Update`.
- Move's synchronous getter calls are not modelled. `StartCoroutine` runs `Animate` at once up to its first `yield`: it calls StartPosition, StartRotation and StartScale and, when `duration > 0`, EndPosition, EndRotation and EndScale. These calls fill the getters' caches during `Update`, and their exceptions end only the coroutine. `Move` states that its keyframe's caches are unchanged, which holds in the model only.
- The synchronous part of `DestroyAfterPlay` is not modelled. Before its first `yield` it loads the clip and either logs a missing clip or instantiates the audio container, all during `Update`. `Audio` records neither in `errors` or `spawned`.
- The raw lists are sequence values that are never null. A null list, which would make a getter throw a null-reference error, is not modelled.
- The DragonBones code that is commented out of the source is not modelled.
- Interpreting.Interpreter.Update: its frame lets the keyframe objects change, and its contract does not state that their raw lists and end caches stay as they were. In the model only the start caches of dispatched Appear keyframes change, as `Dispatch` and `Step` state one keyframe at a time. In the source, Move's coroutine also fills the caches of the keyframes it animates (see above).
- Interpreting.Interpreter.DispatchDue: the loop's contract does not state the combined effect of the handlers over the keyframes it dispatched, `keyFrames[old(i)..i]`, as a fold of `SwitchEffect` over them. It states the cursor, the stamps it passed, the stop condition and the `calls` log. `Step`, which the loop body calls, states `SwitchEffect` for each keyframe.
- Interpreting.Interpreter.Update: the contract does not state the combined effect of the handlers over the dispatched keyframes `keyFrames[old(i)..i]`, as a fold of each keyframe's handler effect. It states the cursor, the dispatch log and the class invariant. `Step` and `Dispatch` state each keyframe's handler effect.
- Interpreting.Interpreter.Update: the contract does not state, over a whole call, that registry names outside the dispatched Appear/DisAppear keyframes are untouched. `Dispatch` states this for each keyframe.
