/**
 * The keyframe record of the animation interpreter (Assets/Scripts/KeyFrame.cs).
 *
 * A keyframe carries its raw vector data as lists of floats and converts each
 * of six of them lazily, at most once, into an engine value: a private flag
 * records whether the conversion ran and a private field holds its result.
 * The spec functions ReadVector and ReadRotation describe one access to such
 * a cache; the class methods are proved to behave as they say.
 */
module KeyFrames {

  /** Unity's Vector3; the default (zero-initialised) value is Zero. */
  datatype Vector3 = Vector3(x: real, y: real, z: real)

  const Zero := Vector3(0.0, 0.0, 0.0)

  /**
   * Unity's Quaternion, kept symbolic: Euler(x, y, z) stands for the value
   * Quaternion.Euler(x, y, z) produces, and Default for the all-zero struct a
   * field holds before anything is stored in it (it is not a rotation that
   * Quaternion.Euler can produce).
   */
  datatype Quaternion = Default | Euler(x: real, y: real, z: real)

  /** The outcome of a property access: its value, or the exception thrown
      by indexing a list that holds fewer than three elements. */
  datatype Read<T> = Returned(value: T) | OutOfRange

  /** A memoised field: the private `b_*` flag and the private `_*` cache. */
  datatype Cell<T> = Cell(ready: bool, cached: T)

  /** The vector built from the first three elements of a raw list. */
  function ToVector3(raw: seq<real>): Vector3
    requires |raw| >= 3
  {
    Vector3(raw[0], raw[1], raw[2])
  }

  /** The rotation built from the first three elements of a raw list. */
  function ToRotation(raw: seq<real>): Quaternion
    requires |raw| >= 3
  {
    Euler(raw[0], raw[1], raw[2])
  }

  /**
   * One access to StartPosition, EndPosition, StartScale or EndScale: the
   * flag is raised BEFORE the list is indexed, so a first access that fails
   * still marks the cache as filled.
   */
  function ReadVector(c: Cell<Vector3>, raw: seq<real>): (Cell<Vector3>, Read<Vector3>)
  {
    if c.ready then (c, Returned(c.cached))
    else if |raw| < 3 then (Cell(true, c.cached), OutOfRange)
    else (Cell(true, ToVector3(raw)), Returned(ToVector3(raw)))
  }

  /**
   * One access to StartRotation or EndRotation: the rotation is computed
   * first and the flag raised after it, so a failing access leaves the cache
   * as it was.
   */
  function ReadRotation(c: Cell<Quaternion>, raw: seq<real>): (Cell<Quaternion>, Read<Quaternion>)
  {
    if c.ready then (c, Returned(c.cached))
    else if |raw| < 3 then (c, OutOfRange)
    else (Cell(true, ToRotation(raw)), Returned(ToRotation(raw)))
  }

  // ---------------------------------------------------------------------
  // Properties of one cache.

  /** After any access the flag is raised, and a raised flag is never lowered
      and its cached value never replaced. */
  lemma VectorFlagSticks(c: Cell<Vector3>, raw: seq<real>)
    ensures ReadVector(c, raw).0.ready
    ensures c.ready ==> ReadVector(c, raw).0 == c
  {
  }

  /** A rotation flag is raised exactly when the access succeeds, and once
      raised it stays raised with the same cached value. */
  lemma RotationFlagSticks(c: Cell<Quaternion>, raw: seq<real>)
    ensures ReadRotation(c, raw).0.ready <==> ReadRotation(c, raw).1.Returned?
    ensures c.ready ==> ReadRotation(c, raw).0 == c
  {
  }

  /** The first access converts the first three elements and ignores any
      further ones; with fewer than three it fails. */
  lemma FirstVectorRead(c: Cell<Vector3>, raw: seq<real>)
    requires !c.ready
    ensures |raw| >= 3 ==> ReadVector(c, raw).1 == Returned(Vector3(raw[0], raw[1], raw[2]))
    ensures |raw| >= 3 ==> ReadVector(c, raw) == ReadVector(c, raw[..3])
    ensures |raw| < 3 <==> ReadVector(c, raw).1 == OutOfRange
  {
  }

  lemma FirstRotationRead(c: Cell<Quaternion>, raw: seq<real>)
    requires !c.ready
    ensures |raw| >= 3 ==> ReadRotation(c, raw).1 == Returned(Euler(raw[0], raw[1], raw[2]))
    ensures |raw| >= 3 ==> ReadRotation(c, raw) == ReadRotation(c, raw[..3])
    ensures |raw| < 3 <==> ReadRotation(c, raw).1 == OutOfRange
  {
  }

  /** Memoisation: once an access has returned a value, every later access
      returns the same value and changes nothing, whatever the raw list has
      become in between. */
  lemma VectorReadMemoises(c: Cell<Vector3>, raw: seq<real>, later: seq<real>)
    requires ReadVector(c, raw).1.Returned?
    ensures ReadVector(ReadVector(c, raw).0, later) == (ReadVector(c, raw).0, ReadVector(c, raw).1)
  {
  }

  lemma RotationReadMemoises(c: Cell<Quaternion>, raw: seq<real>, later: seq<real>)
    requires ReadRotation(c, raw).1.Returned?
    ensures ReadRotation(ReadRotation(c, raw).0, later) == (ReadRotation(c, raw).0, ReadRotation(c, raw).1)
  {
  }

  /** A failed first access to a vector property still raises the flag, so
      the next access returns the never-assigned default (0, 0, 0) instead of
      failing again, whatever the list holds by then. */
  lemma FailedVectorReadCachesZero(raw: seq<real>, later: seq<real>)
    requires |raw| < 3
    ensures ReadVector(Cell(false, Zero), raw) == (Cell(true, Zero), OutOfRange)
    ensures ReadVector(ReadVector(Cell(false, Zero), raw).0, later).1 == Returned(Zero)
  {
  }

  /** A failed rotation access leaves the cache untouched: it fails again
      while the list stays short, and succeeds once the list is long enough. */
  lemma FailedRotationReadRetries(c: Cell<Quaternion>, raw: seq<real>, later: seq<real>)
    requires !c.ready && |raw| < 3
    ensures ReadRotation(c, raw).0 == c
    ensures ReadRotation(ReadRotation(c, raw).0, later) == ReadRotation(c, later)
  {
  }

  // ---------------------------------------------------------------------

  /**
   * One timeline event. The scalar fields are immutable here: nothing in the
   * interpreter assigns them after construction. The six raw lists are
   * mutable, because a List<float> can be changed through its reference
   * after the record was built; the caches are what protect the getters
   * from such changes.
   */
  class KeyFrame {
    /** 0 appear, 1 disappear, 2 move, 3 audio, 4 background. */
    const action: int
    /** The `type` field: 0 prop, 1 human, 2 crawler, 3 flyer. */
    const actorType: int
    const name: string
    const timestamp: real
    var startpos: seq<real>
    var endpos: seq<real>
    var startrotation: seq<real>
    var endrotation: seq<real>
    var startscale: seq<real>
    var endscale: seq<real>
    const duration: real
    const animation: string
    const loop: int

    var startPosReady: bool
    var endPosReady: bool
    var startRotReady: bool
    var endRotReady: bool
    var startScaleReady: bool
    var endScaleReady: bool

    var startPosCache: Vector3
    var endPosCache: Vector3
    var startRotCache: Quaternion
    var endRotCache: Quaternion
    var startScaleCache: Vector3
    var endScaleCache: Vector3

    /** A cache whose flag is down still holds its type's default value. */
    ghost predicate Valid()
      reads this
    {
      && (!startPosReady ==> startPosCache == Zero)
      && (!endPosReady ==> endPosCache == Zero)
      && (!startRotReady ==> startRotCache == Default)
      && (!endRotReady ==> endRotCache == Default)
      && (!startScaleReady ==> startScaleCache == Zero)
      && (!endScaleReady ==> endScaleCache == Zero)
    }

    function StartPosCell(): Cell<Vector3> reads this`startPosReady, this`startPosCache { Cell(startPosReady, startPosCache) }
    function EndPosCell(): Cell<Vector3> reads this`endPosReady, this`endPosCache { Cell(endPosReady, endPosCache) }
    function StartRotCell(): Cell<Quaternion> reads this`startRotReady, this`startRotCache { Cell(startRotReady, startRotCache) }
    function EndRotCell(): Cell<Quaternion> reads this`endRotReady, this`endRotCache { Cell(endRotReady, endRotCache) }
    function StartScaleCell(): Cell<Vector3> reads this`startScaleReady, this`startScaleCache { Cell(startScaleReady, startScaleCache) }
    function EndScaleCell(): Cell<Vector3> reads this`endScaleReady, this`endScaleCache { Cell(endScaleReady, endScaleCache) }

    constructor (action: int, actorType: int, name: string, timestamp: real,
                 startpos: seq<real>, endpos: seq<real>,
                 startrotation: seq<real>, endrotation: seq<real>,
                 startscale: seq<real>, endscale: seq<real>,
                 duration: real, animation: string, loop: int)
      ensures this.action == action && this.actorType == actorType
      ensures this.name == name && this.timestamp == timestamp
      ensures this.startpos == startpos && this.endpos == endpos
      ensures this.startrotation == startrotation && this.endrotation == endrotation
      ensures this.startscale == startscale && this.endscale == endscale
      ensures this.duration == duration && this.animation == animation && this.loop == loop
      ensures !startPosReady && !endPosReady && !startRotReady
      ensures !endRotReady && !startScaleReady && !endScaleReady
      ensures Valid()
    {
      this.action := action;
      this.actorType := actorType;
      this.name := name;
      this.timestamp := timestamp;
      this.startpos := startpos;
      this.endpos := endpos;
      this.startrotation := startrotation;
      this.endrotation := endrotation;
      this.startscale := startscale;
      this.endscale := endscale;
      this.duration := duration;
      this.animation := animation;
      this.loop := loop;
      startPosReady, endPosReady, startRotReady := false, false, false;
      endRotReady, startScaleReady, endScaleReady := false, false, false;
      startPosCache, endPosCache := Zero, Zero;
      startRotCache, endRotCache := Default, Default;
      startScaleCache, endScaleCache := Zero, Zero;
    }

    method StartPosition() returns (r: Read<Vector3>)
      modifies this`startPosReady, this`startPosCache
      ensures old(Valid()) ==> Valid()
      ensures (StartPosCell(), r) == ReadVector(old(StartPosCell()), startpos)
    {
      if !startPosReady {
        startPosReady := true;
        if |startpos| < 3 { return OutOfRange; }
        startPosCache := Vector3(startpos[0], startpos[1], startpos[2]);
      }
      r := Returned(startPosCache);
    }

    method EndPosition() returns (r: Read<Vector3>)
      modifies this`endPosReady, this`endPosCache
      ensures old(Valid()) ==> Valid()
      ensures (EndPosCell(), r) == ReadVector(old(EndPosCell()), endpos)
    {
      if !endPosReady {
        endPosReady := true;
        if |endpos| < 3 { return OutOfRange; }
        endPosCache := Vector3(endpos[0], endpos[1], endpos[2]);
      }
      r := Returned(endPosCache);
    }

    method StartRotation() returns (r: Read<Quaternion>)
      modifies this`startRotReady, this`startRotCache
      ensures old(Valid()) ==> Valid()
      ensures (StartRotCell(), r) == ReadRotation(old(StartRotCell()), startrotation)
    {
      if !startRotReady {
        if |startrotation| < 3 { return OutOfRange; }
        startRotCache := Euler(startrotation[0], startrotation[1], startrotation[2]);
        startRotReady := true;
      }
      r := Returned(startRotCache);
    }

    method EndRotation() returns (r: Read<Quaternion>)
      modifies this`endRotReady, this`endRotCache
      ensures old(Valid()) ==> Valid()
      ensures (EndRotCell(), r) == ReadRotation(old(EndRotCell()), endrotation)
    {
      if !endRotReady {
        if |endrotation| < 3 { return OutOfRange; }
        endRotCache := Euler(endrotation[0], endrotation[1], endrotation[2]);
        endRotReady := true;
      }
      r := Returned(endRotCache);
    }

    method StartScale() returns (r: Read<Vector3>)
      modifies this`startScaleReady, this`startScaleCache
      ensures old(Valid()) ==> Valid()
      ensures (StartScaleCell(), r) == ReadVector(old(StartScaleCell()), startscale)
    {
      if !startScaleReady {
        startScaleReady := true;
        if |startscale| < 3 { return OutOfRange; }
        startScaleCache := Vector3(startscale[0], startscale[1], startscale[2]);
      }
      r := Returned(startScaleCache);
    }

    method EndScale() returns (r: Read<Vector3>)
      modifies this`endScaleReady, this`endScaleCache
      ensures old(Valid()) ==> Valid()
      ensures (EndScaleCell(), r) == ReadVector(old(EndScaleCell()), endscale)
    {
      if !endScaleReady {
        endScaleReady := true;
        if |endscale| < 3 { return OutOfRange; }
        endScaleCache := Vector3(endscale[0], endscale[1], endscale[2]);
      }
      r := Returned(endScaleCache);
    }
  }

  /**
   * Two accesses to StartPosition with the raw list replaced in between: the
   * second returns what the first did. The other five getters behave alike
   * (VectorReadMemoises, RotationReadMemoises).
   */
  method RereadAfterListChange(k: KeyFrame, replacement: seq<real>) returns (first: Read<Vector3>, second: Read<Vector3>)
    requires k.Valid()
    modifies k
    ensures first.Returned? ==> second == first
    ensures old(k.startPosReady) ==> first == second == Returned(old(k.startPosCache))
    ensures !old(k.startPosReady) && |old(k.startpos)| < 3 ==> first == OutOfRange && second == Returned(Zero)
  {
    first := k.StartPosition();
    k.startpos := replacement;
    second := k.StartPosition();
  }
}
