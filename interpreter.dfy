/**
 * The interpreter behaviour (Assets/Scripts/Interpreter.cs): Start sorts the
 * parsed keyframes by timestamp; every Update dispatches, in list order, each
 * keyframe whose timestamp the clock has strictly passed, by its action code,
 * and advances a cursor past it. Appear, DisAppear and Move work on a
 * registry from names to the actors in the scene.
 *
 * Engine objects are opaque here: an actor is a handle made of a fresh id and
 * the prefab it was instantiated from, a coroutine is a Task recorded when it
 * is started, the texture resources are a set of names fixed at construction,
 * and the clock is the `now` argument of Update.
 */
module Interpreting {
  import opened KeyFrames
  import opened Timeline

  /** The four prefabs the interpreter is configured with. */
  datatype Prefab = Stuff | Human | Creeping | Flying

  /** A scene object made by Instantiate: the n-th instantiation gets id n. */
  datatype Actor = Actor(id: nat, prefab: Prefab)

  /** One Instantiate as Appear performs it: the new actor, the position and
      rotation it was placed at, and the outcome of reading the scale that
      Appear then assigns to it. */
  datatype Spawn = Spawn(actor: Actor, position: Vector3, rotation: Quaternion, scale: Read<Vector3>)

  /** The `_MainTex` texture of the background material; NoTexture is what
      Resources.Load returns when the resource does not exist (null). */
  datatype Texture = NoTexture | TextureAsset(name: string)

  /** A started coroutine: Animate for a Move, DestroyAfterPlay for an Audio. */
  datatype Task = Animate(actor: Actor, frame: KeyFrame) | DestroyAfterPlay(frame: KeyFrame)

  /** The messages the interpreter passes to Debug.LogError. */
  datatype LogError =
    | DuplicateName(name: string)
    | UnexpectedType(actorType: int, timestamp: real)
    | MissingOnRemove(name: string, timestamp: real)
    | MissingOnAnimate(name: string, timestamp: real)
    | TextureNotFound(name: string, timestamp: real)

  /** The prefab Appear instantiates for a type code: `creeping` unless the
      switch picks another one. */
  function PrefabFor(actorType: int): Prefab
  {
    match actorType
    case 0 => Stuff
    case 1 => Human
    case 2 => Creeping
    case 3 => Flying
    case _ => Creeping
  }

  /** The type code that names each prefab in a keyframe. */
  function TypeCode(p: Prefab): int
  {
    match p
    case Stuff => 0
    case Human => 1
    case Creeping => 2
    case Flying => 3
  }

  /** Selection is total: the codes 0-3 pick the prefab they name and every
      other code falls back to Creeping. */
  lemma PrefabSelection(actorType: int)
    ensures 0 <= actorType <= 3 ==> TypeCode(PrefabFor(actorType)) == actorType
    ensures PrefabFor(actorType) == Creeping <==> actorType == 2 || actorType < 0 || 3 < actorType
  {
  }

  lemma PrefabCodeRoundTrip(p: Prefab)
    ensures PrefabFor(TypeCode(p)) == p
  {
  }

  /** The action codes Update has a handler for. */
  predicate Known(action: int)
  {
    0 <= action <= 4
  }

  /** The indices in [lo, hi) whose action code has a handler, in order. */
  function Handled(frames: seq<KeyFrame>, lo: nat, hi: nat): seq<nat>
    requires lo <= hi <= |frames|
    decreases hi - lo
  {
    if hi == lo then [] else Handled(frames, lo, hi - 1) + (if Known(frames[hi - 1].action) then [hi - 1] else [])
  }

  /** The handled indices are exactly those in [lo, hi) with a handler, each
      once, in increasing order. */
  lemma {:induction false} HandledIndices(frames: seq<KeyFrame>, lo: nat, hi: nat)
    requires lo <= hi <= |frames|
    ensures forall x :: x in Handled(frames, lo, hi) <==> lo <= x < hi && Known(frames[x].action)
    ensures forall a, b :: 0 <= a < b < |Handled(frames, lo, hi)| ==> Handled(frames, lo, hi)[a] < Handled(frames, lo, hi)[b]
    decreases hi - lo
  {
    if hi > lo {
      HandledIndices(frames, lo, hi - 1);
      var before := Handled(frames, lo, hi - 1);
      assert forall a :: 0 <= a < |before| ==> before[a] in before;
    }
  }

  /** Extending the range by one index appends that index when it is handled. */
  lemma HandledStep(log: seq<nat>, frames: seq<KeyFrame>, lo: nat, hi: nat)
    requires lo <= hi < |frames|
    ensures log + Handled(frames, lo, hi + 1) ==
      log + Handled(frames, lo, hi) + (if Known(frames[hi].action) then [hi] else [])
  {
  }

  /**
   * The dispatch log invariant: every handler call is for a keyframe at or
   * before the cursor whose code has a handler; calls come in index order,
   * and an index is entered twice only for an Appear whose getter threw,
   * which leaves the cursor on it so that the next Update retries it.
   */
  ghost predicate CallLog(calls: seq<nat>, frames: seq<KeyFrame>, cursor: nat)
  {
    && cursor <= |frames|
    && (forall a :: 0 <= a < |calls| ==>
          && calls[a] <= cursor && calls[a] < |frames|
          && Known(frames[calls[a]].action)
          && (calls[a] == cursor ==> frames[calls[a]].action == 0))
    && (forall a, b :: 0 <= a < b < |calls| ==>
          calls[a] < calls[b] || (calls[a] == calls[b] && frames[calls[a]].action == 0))
  }

  /** One Update keeps the dispatch log invariant: it appends the handled
      indices from the old cursor to the new one, and possibly the new
      cursor itself when an Appear there threw. */
  lemma CallLogExtended(before: seq<nat>, frames: seq<KeyFrame>, from: nat, cursor: nat, after: seq<nat>)
    requires CallLog(before, frames, from) && from <= cursor <= |frames|
    requires
      || after == before + Handled(frames, from, cursor)
      || (cursor < |frames| && frames[cursor].action == 0 && after == before + Handled(frames, from, cursor) + [cursor])
    ensures CallLog(after, frames, cursor)
  {
    HandledIndices(frames, from, cursor);
    var h := Handled(frames, from, cursor);
    assert forall k :: 0 <= k < |h| ==> h[k] in h;
    var t := if after == before + h then h else h + [cursor];
    assert after == before + t;
    CallLogAppend(before, t, frames, from, cursor);
  }

  /** The calls of one Update: handled indices in [from, cursor], increasing,
      the cursor itself only for an Appear. */
  ghost predicate NewCalls(t: seq<nat>, frames: seq<KeyFrame>, from: nat, cursor: nat)
    requires cursor <= |frames|
  {
    && (forall k :: 0 <= k < |t| ==>
          && from <= t[k] <= cursor && t[k] < |frames| && Known(frames[t[k]].action)
          && (t[k] == cursor ==> frames[t[k]].action == 0))
    && (forall a, b :: 0 <= a < b < |t| ==> t[a] < t[b])
  }

  lemma CallLogAppend(before: seq<nat>, t: seq<nat>, frames: seq<KeyFrame>, from: nat, cursor: nat)
    requires CallLog(before, frames, from) && from <= cursor <= |frames|
    requires NewCalls(t, frames, from, cursor)
    ensures CallLog(before + t, frames, cursor)
  {
    var after := before + t;
    forall a | 0 <= a < |after|
      ensures && after[a] <= cursor && after[a] < |frames| && Known(frames[after[a]].action)
              && (after[a] == cursor ==> frames[after[a]].action == 0)
    {
      if a < |before| {
        assert after[a] == before[a];
      } else {
        assert after[a] == t[a - |before|];
      }
    }
    forall a, b | 0 <= a < b < |after|
      ensures after[a] < after[b] || (after[a] == after[b] && frames[after[a]].action == 0)
    {
      if b < |before| {
        assert after[a] == before[a] && after[b] == before[b];
      } else if a < |before| {
        assert after[a] == before[a] && after[b] == t[b - |before|];
      } else {
        assert after[a] == t[a - |before|] && after[b] == t[b - |before|];
      }
    }
  }

  /** The actor was instantiated and not destroyed. */
  ghost predicate Live(a: Actor, spawned: seq<Spawn>, destroyed: set<Actor>)
  {
    a.id < |spawned| && spawned[a.id].actor == a && a !in destroyed
  }

  /** The n-th instantiation made the actor with id n, every destroyed actor
      was instantiated, and the registry binds each name to a distinct live
      actor. */
  ghost predicate RegistryInvariant(gos: map<string, Actor>, spawned: seq<Spawn>, destroyed: set<Actor>)
  {
    && (forall k :: 0 <= k < |spawned| ==> spawned[k].actor.id == k)
    && (forall a :: a in destroyed ==> a.id < |spawned| && spawned[a.id].actor == a)
    && (forall n :: n in gos ==> Live(gos[n], spawned, destroyed))
    && (forall n, m :: n in gos && m in gos && n != m ==> gos[n] != gos[m])
  }

  /** Instantiating a new actor, and then binding an unused name to it, keep
      the invariant. */
  lemma AppearKeepsInvariant(gos: map<string, Actor>, spawned: seq<Spawn>, destroyed: set<Actor>,
                             s: Spawn, name: string)
    requires RegistryInvariant(gos, spawned, destroyed)
    requires s.actor.id == |spawned| && name !in gos
    ensures RegistryInvariant(gos, spawned + [s], destroyed)
    ensures RegistryInvariant(gos[name := s.actor], spawned + [s], destroyed)
  {
    var spawned' := spawned + [s];
    forall n | n in gos
      ensures Live(gos[n], spawned', destroyed) && gos[n] != s.actor
    {
      assert spawned'[gos[n].id] == spawned[gos[n].id];
    }
    assert s.actor !in destroyed;
  }

  /** Destroying a registered actor and removing its name keep the invariant. */
  lemma DisAppearKeepsInvariant(gos: map<string, Actor>, spawned: seq<Spawn>, destroyed: set<Actor>, name: string)
    requires RegistryInvariant(gos, spawned, destroyed) && name in gos
    ensures RegistryInvariant(gos - {name}, spawned, destroyed + {gos[name]})
  {
  }

  class Interpreter {
    /** keyFrameList.keyFrames. */
    var keyFrames: seq<KeyFrame>
    /** The index of the next keyframe to dispatch. */
    var i: nat
    /** The `gos` dictionary: name to actor. */
    var gos: map<string, Actor>
    /** The number of Instantiate calls so far: the id of the next actor. */
    var instantiated: nat
    /** The texture of the background material. */
    var mainTex: Texture
    /** The names under which a texture resource exists. */
    const textures: set<string>

    /** Every Instantiate made by Appear, in order. */
    ghost var spawned: seq<Spawn>
    /** Every actor DisAppear passed to Destroy. */
    ghost var destroyed: set<Actor>
    /** Every coroutine Move and Audio started. */
    ghost var tasks: multiset<Task>
    /** Every Debug.LogError message of Appear, DisAppear, Move and Background, in order. */
    ghost var errors: seq<LogError>
    /** The index of every keyframe whose handler was entered, in order. */
    ghost var calls: seq<nat>

    /** Registry invariant: every name is bound to a distinct live actor. */
    ghost predicate RegistryValid()
      reads this
    {
      instantiated == |spawned| && RegistryInvariant(gos, spawned, destroyed)
    }

    /** Dispatch log invariant: see CallLog. */
    ghost predicate CallsValid()
      reads this
    {
      CallLog(calls, keyFrames, i)
    }

    ghost predicate Valid()
      reads this
    {
      RegistryValid() && CallsValid() && Sorted(Stamps(keyFrames))
    }

    /** The field initialisers: an empty registry and the cursor at 0. */
    constructor (textures: set<string>, background: Texture)
      ensures Valid()
      ensures keyFrames == [] && i == 0 && gos == map[] && instantiated == 0
      ensures this.textures == textures && mainTex == background
      ensures spawned == [] && destroyed == {} && tasks == multiset{} && errors == [] && calls == []
    {
      keyFrames, i, gos, instantiated := [], 0, map[], 0;
      this.textures := textures;
      mainTex := background;
      spawned, destroyed, tasks, errors, calls := [], {}, multiset{}, [], [];
    }

    /** Start, after the file has been read and parsed into `parsed`: sort the
        list by timestamp with the comparator Compare. */
    method Start(parsed: seq<KeyFrame>)
      requires RegistryValid() && i == 0 && calls == []
      modifies this`keyFrames
      ensures Valid()
      ensures multiset(keyFrames) == multiset(parsed)
      ensures Sorted(Stamps(keyFrames))
    {
      keyFrames := SortFrames(parsed);
    }

    // ---------------------------------------------------------------------
    // What each handler does, as a relation between the state before and
    // after it. Each names only the fields its handler may change.

    /** The fields no handler but the named one touches. */
    twostate predicate SceneKept(gosToo: bool, spawnToo: bool, destroyedToo: bool, tasksToo: bool,
                                 texToo: bool, errorsToo: bool)
      reads this`gos, this`instantiated, this`spawned, this`destroyed, this`tasks, this`mainTex, this`errors
    {
      && (gosToo || gos == old(gos))
      && (spawnToo || (instantiated == old(instantiated) && spawned == old(spawned)))
      && (destroyedToo || destroyed == old(destroyed))
      && (tasksToo || tasks == old(tasks))
      && (texToo || mainTex == old(mainTex))
      && (errorsToo || errors == old(errors))
    }

    /** The start caches of the keyframe are as they were. */
    twostate predicate CellsKept(frame: KeyFrame)
      reads frame`startPosReady, frame`startPosCache, frame`startRotReady, frame`startRotCache
      reads frame`startScaleReady, frame`startScaleCache
    {
      && frame.StartPosCell() == old(frame.StartPosCell())
      && frame.StartRotCell() == old(frame.StartRotCell())
      && frame.StartScaleCell() == old(frame.StartScaleCell())
    }

    /**
     * Appear. A duplicate name is reported and nothing else happens.
     * Otherwise an unknown type code is reported, StartPosition and then
     * StartRotation are read; if either throws nothing is instantiated.
     * Otherwise one actor of the selected prefab is instantiated, StartScale
     * is read, and the name is bound to the actor unless that read threw.
     * The start caches end as those reads leave them.
     */
    twostate predicate AppearEffect(frame: KeyFrame, thrown: bool)
      reads this`gos, this`instantiated, this`spawned, this`errors
      reads frame`startpos, frame`startrotation, frame`startscale
      reads frame`startPosReady, frame`startPosCache, frame`startRotReady, frame`startRotCache
      reads frame`startScaleReady, frame`startScaleCache
    {
      var pos := ReadVector(old(frame.StartPosCell()), frame.startpos);
      var rot := ReadRotation(old(frame.StartRotCell()), frame.startrotation);
      var scale := ReadVector(old(frame.StartScaleCell()), frame.startscale);
      var actor := Actor(old(instantiated), PrefabFor(frame.actorType));
      && errors == old(errors) +
           (if frame.name in old(gos) then [DuplicateName(frame.name)]
            else if 0 <= frame.actorType <= 3 then []
            else [UnexpectedType(frame.actorType, frame.timestamp)])
      && if frame.name in old(gos) then
           && !thrown && gos == old(gos) && instantiated == old(instantiated) && spawned == old(spawned)
           && frame.StartPosCell() == old(frame.StartPosCell())
           && frame.StartRotCell() == old(frame.StartRotCell())
           && frame.StartScaleCell() == old(frame.StartScaleCell())
         else if pos.1.OutOfRange? || rot.1.OutOfRange? then
           && thrown && gos == old(gos) && instantiated == old(instantiated) && spawned == old(spawned)
           && frame.StartPosCell() == pos.0
           && frame.StartRotCell() == (if pos.1.OutOfRange? then old(frame.StartRotCell()) else rot.0)
           && frame.StartScaleCell() == old(frame.StartScaleCell())
         else
           && instantiated == old(instantiated) + 1
           && spawned == old(spawned) + [Spawn(actor, pos.1.value, rot.1.value, scale.1)]
           && thrown == scale.1.OutOfRange?
           && gos == (if thrown then old(gos) else old(gos)[frame.name := actor])
           && frame.StartPosCell() == pos.0
           && frame.StartRotCell() == rot.0
           && frame.StartScaleCell() == scale.0
    }

    /** DisAppear: a missing name is reported; otherwise the bound actor is
        destroyed and exactly that entry removed. */
    twostate predicate DisAppearEffect(frame: KeyFrame)
      reads this`gos, this`destroyed, this`errors
    {
      if frame.name in old(gos) then
        && gos == old(gos) - {frame.name}
        && destroyed == old(destroyed) + {old(gos)[frame.name]}
        && errors == old(errors)
      else
        && gos == old(gos)
        && destroyed == old(destroyed)
        && errors == old(errors) + [MissingOnRemove(frame.name, frame.timestamp)]
    }

    /** Move: a missing name is reported; otherwise one Animate coroutine is
        started for the bound actor. */
    twostate predicate MoveEffect(frame: KeyFrame)
      reads this`gos, this`tasks, this`errors
    {
      if frame.name in gos then
        tasks == old(tasks) + multiset{Animate(gos[frame.name], frame)} && errors == old(errors)
      else
        tasks == old(tasks) && errors == old(errors) + [MissingOnAnimate(frame.name, frame.timestamp)]
    }

    /** Audio: one DestroyAfterPlay coroutine is started. */
    twostate predicate AudioEffect(frame: KeyFrame)
      reads this`tasks
    {
      tasks == old(tasks) + multiset{DestroyAfterPlay(frame)}
    }

    /** Background: the material shows the named texture, or none when the
        resource is missing, which is reported. */
    twostate predicate BackgroundEffect(frame: KeyFrame)
      reads this`mainTex, this`errors
    {
      && mainTex == (if frame.name in textures then TextureAsset(frame.name) else NoTexture)
      && errors == old(errors) +
           (if frame.name in textures then [] else [TextureNotFound(frame.name, frame.timestamp)])
    }

    /** The switch: code 0 runs Appear, 1 DisAppear, 2 Move, 3 Audio and
        4 Background, each leaving everything else as it was; any other code
        does nothing. Only Appear can throw, since the background material
        is taken to be assigned. */
    twostate predicate SwitchEffect(frame: KeyFrame, thrown: bool)
      reads this`gos, this`instantiated, this`spawned, this`destroyed, this`tasks, this`mainTex, this`errors
      reads frame`startpos, frame`startrotation, frame`startscale
      reads frame`startPosReady, frame`startPosCache, frame`startRotReady, frame`startRotCache
      reads frame`startScaleReady, frame`startScaleCache
    {
      match frame.action
      case 0 => AppearEffect(frame, thrown) && SceneKept(true, true, false, false, false, true)
      case 1 => !thrown && DisAppearEffect(frame) && SceneKept(true, false, true, false, false, true) && CellsKept(frame)
      case 2 => !thrown && MoveEffect(frame) && SceneKept(false, false, false, true, false, true) && CellsKept(frame)
      case 3 => !thrown && AudioEffect(frame) && SceneKept(false, false, false, true, false, false) && CellsKept(frame)
      case 4 => !thrown && BackgroundEffect(frame) && SceneKept(false, false, false, false, true, true) && CellsKept(frame)
      case _ => !thrown && SceneKept(false, false, false, false, false, false) && CellsKept(frame)
    }

    /**
     * Appear: a name already registered is reported and nothing else
     * happens. Otherwise the prefab is chosen by type code, the actor is
     * instantiated at StartPosition and StartRotation, its scale set from
     * StartScale, and the name bound to it. A getter that throws ends the
     * handler where it is: before Instantiate for the position or rotation,
     * after it (leaving an unregistered actor in the scene) for the scale.
     */
    method Appear(frame: KeyFrame) returns (thrown: bool)
      requires RegistryValid()
      modifies this`gos, this`instantiated, this`spawned, this`errors
      modifies frame`startPosReady, frame`startPosCache, frame`startRotReady, frame`startRotCache
      modifies frame`startScaleReady, frame`startScaleCache
      ensures RegistryValid()
      ensures AppearEffect(frame, thrown)
    {
      thrown := false;
      if frame.name in gos {
        errors := errors + [DuplicateName(frame.name)];
      } else {
        ghost var posRead := ReadVector(frame.StartPosCell(), frame.startpos);
        ghost var rotRead := ReadRotation(frame.StartRotCell(), frame.startrotation);
        var prefab := PrefabFor(frame.actorType);
        if !(0 <= frame.actorType <= 3) {
          errors := errors + [UnexpectedType(frame.actorType, frame.timestamp)];
        }
        var pos := frame.StartPosition();
        assert (frame.StartPosCell(), pos) == posRead;
        if pos.OutOfRange? {
          thrown := true;
        } else {
          var rot := frame.StartRotation();
          assert (frame.StartRotCell(), rot) == rotRead;
          if rot.OutOfRange? {
            thrown := true;
          } else {
            thrown := Place(frame, prefab, pos.value, rot.value);
          }
        }
      }
    }

    /** The end of Appear once position and rotation were read: Instantiate
        the prefab there, read StartScale for it, and bind the name to the
        new actor unless that read threw. */
    method Place(frame: KeyFrame, prefab: Prefab, position: Vector3, rotation: Quaternion) returns (thrown: bool)
      requires RegistryValid() && frame.name !in gos
      modifies this`gos, this`instantiated, this`spawned
      modifies frame`startScaleReady, frame`startScaleCache
      ensures RegistryValid()
      ensures
        var scale := ReadVector(old(frame.StartScaleCell()), frame.startscale);
        var actor := Actor(old(instantiated), prefab);
        && instantiated == old(instantiated) + 1
        && spawned == old(spawned) + [Spawn(actor, position, rotation, scale.1)]
        && thrown == scale.1.OutOfRange?
        && gos == (if thrown then old(gos) else old(gos)[frame.name := actor])
        && frame.StartScaleCell() == scale.0
    {
      var actor := Actor(instantiated, prefab);
      instantiated := instantiated + 1;
      var scale := frame.StartScale();
      AppearKeepsInvariant(gos, spawned, destroyed, Spawn(actor, position, rotation, scale), frame.name);
      spawned := spawned + [Spawn(actor, position, rotation, scale)];
      thrown := scale.OutOfRange?;
      if !thrown {
        gos := gos[frame.name := actor];
      }
    }

    /** DisAppear: a missing name is reported and nothing else happens;
        otherwise its actor is destroyed and exactly that entry removed. */
    method DisAppear(frame: KeyFrame)
      requires RegistryValid()
      modifies this`gos, this`destroyed, this`errors
      ensures RegistryValid()
      ensures DisAppearEffect(frame)
    {
      if frame.name !in gos {
        errors := errors + [MissingOnRemove(frame.name, frame.timestamp)];
        return;
      }
      DisAppearKeepsInvariant(gos, spawned, destroyed, frame.name);
      destroyed := destroyed + {gos[frame.name]};
      gos := gos - {frame.name};
    }

    /** Move: a missing name is reported; otherwise an Animate coroutine is
        started for the named actor. The registry is never changed. */
    method Move(frame: KeyFrame)
      requires RegistryValid()
      modifies this`tasks, this`errors
      ensures MoveEffect(frame)
    {
      if frame.name !in gos {
        errors := errors + [MissingOnAnimate(frame.name, frame.timestamp)];
        return;
      }
      tasks := tasks + multiset{Animate(gos[frame.name], frame)};
    }

    /** Audio: starts the DestroyAfterPlay coroutine, which loads and plays
        the clip on its own. */
    method Audio(frame: KeyFrame)
      modifies this`tasks
      ensures AudioEffect(frame)
    {
      tasks := tasks + multiset{DestroyAfterPlay(frame)};
    }

    /** Background: loads the texture named by the keyframe and assigns it to
        the material, null included when the resource is missing (which is
        also reported). */
    method Background(frame: KeyFrame)
      modifies this`mainTex, this`errors
      ensures BackgroundEffect(frame)
    {
      var newtex := if frame.name in textures then TextureAsset(frame.name) else NoTexture;
      if newtex == NoTexture {
        errors := errors + [TextureNotFound(frame.name, frame.timestamp)];
      }
      mainTex := newtex;
    }

    /**
     * The `switch (frame.action)` of Update's loop: runs the handler the code
     * names, or nothing for a code without one, and logs the keyframe's
     * index `index` once its handler has been entered. Only an Appear can
     * throw, and only the entry named by an Appear or DisAppear keyframe can
     * change.
     */
    method Dispatch(frame: KeyFrame, ghost index: nat) returns (thrown: bool)
      requires RegistryValid()
      modifies this`gos, this`instantiated, this`spawned, this`errors, this`destroyed, this`tasks, this`mainTex
      modifies this`calls
      modifies frame`startPosReady, frame`startPosCache, frame`startRotReady, frame`startRotCache
      modifies frame`startScaleReady, frame`startScaleCache
      ensures RegistryValid()
      ensures SwitchEffect(frame, thrown)
      ensures calls == old(calls) + if Known(frame.action) then [index] else []
      ensures thrown ==> frame.action == 0 && gos == old(gos)
      ensures forall n :: n != frame.name ==> (n in gos <==> n in old(gos)) && (n in gos ==> gos[n] == old(gos)[n])
    {
      thrown := false;
      match frame.action {
        case 0 =>
          thrown := Appear(frame);
          calls := calls + [index];
        case 1 =>
          DisAppear(frame);
          calls := calls + [index];
        case 2 =>
          Move(frame);
          calls := calls + [index];
        case 3 =>
          Audio(frame);
          calls := calls + [index];
        case 4 =>
          Background(frame);
          calls := calls + [index];
        case _ =>
      }
    }

    /**
     * One Update at clock time `now`: dispatch every keyframe from the cursor
     * on whose timestamp is strictly below `now`, by action code, advancing
     * the cursor past each. `thrown` reports an exception escaping a handler
     * (a getter of an Appear keyframe), which ends the call with the cursor
     * still on that keyframe.
     */
    method Update(now: real) returns (thrown: bool)
      requires Valid()
      modifies this`gos, this`instantiated, this`spawned, this`errors, this`destroyed, this`tasks, this`mainTex
      modifies this`calls, this`i, keyFrames
      ensures Valid()
      ensures keyFrames == old(keyFrames)
      ensures old(i) <= i
      ensures forall k :: old(i) <= k < i ==> keyFrames[k].timestamp < now
      ensures !thrown ==> i == Drain(Stamps(keyFrames), old(i), now)
      ensures !thrown ==> forall k :: i <= k < |keyFrames| ==> now <= keyFrames[k].timestamp
      ensures thrown ==> i < |keyFrames| && keyFrames[i].timestamp < now && keyFrames[i].action == 0
      ensures calls == old(calls) + Handled(keyFrames, old(i), i) + (if thrown then [i] else [])
    {
      ghost var ts, from, log := Stamps(keyFrames), i, calls;
      thrown := DispatchDue(now);
      CallLogExtended(log, keyFrames, from, i, calls);
      if !thrown {
        DrainStops(ts, from, i, now);
        DrainLeavesFuture(ts, i, now);
      }
    }

    /** The loop of Update: dispatch keyframes from the cursor on while their
        timestamp is strictly below `now`, stopping early when a handler
        throws. */
    method DispatchDue(now: real) returns (thrown: bool)
      requires RegistryValid() && i <= |keyFrames|
      modifies this`gos, this`instantiated, this`spawned, this`errors, this`destroyed, this`tasks, this`mainTex
      modifies this`calls, this`i, keyFrames
      ensures RegistryValid()
      ensures old(i) <= i <= |keyFrames|
      ensures forall k :: old(i) <= k < i ==> keyFrames[k].timestamp < now
      ensures !thrown ==> i == |keyFrames| || now <= keyFrames[i].timestamp
      ensures thrown ==> i < |keyFrames| && keyFrames[i].timestamp < now && keyFrames[i].action == 0
      ensures calls == old(calls) + Handled(keyFrames, old(i), i) + (if thrown then [i] else [])
    {
      thrown := false;
      while i < |keyFrames| && now > keyFrames[i].timestamp
        invariant old(i) <= i <= |keyFrames|
        invariant RegistryValid()
        invariant forall k :: old(i) <= k < i ==> keyFrames[k].timestamp < now
        invariant calls == old(calls) + Handled(keyFrames, old(i), i)
        decreases |keyFrames| - i
      {
        thrown := Step(keyFrames[i]);
        if thrown {
          break;
        }
        HandledStep(old(calls), keyFrames, old(i), i - 1);
      }
    }

    /** One pass of Update's loop body: dispatch the keyframe under the cursor
        and, unless the handler threw, move the cursor past it. */
    method Step(frame: KeyFrame) returns (thrown: bool)
      requires RegistryValid() && i < |keyFrames| && frame == keyFrames[i]
      modifies this`gos, this`instantiated, this`spawned, this`errors, this`destroyed, this`tasks, this`mainTex
      modifies this`calls, this`i
      modifies frame`startPosReady, frame`startPosCache, frame`startRotReady, frame`startRotCache
      modifies frame`startScaleReady, frame`startScaleCache
      ensures RegistryValid()
      ensures SwitchEffect(frame, thrown)
      ensures thrown ==> i == old(i) && frame.action == 0 && calls == old(calls) + [i]
      ensures !thrown ==> i == old(i) + 1
      ensures !thrown ==> calls == old(calls) + if Known(frame.action) then [old(i)] else []
    {
      thrown := Dispatch(frame, i);
      if !thrown {
        i := i + 1;
      }
    }
  }
}
