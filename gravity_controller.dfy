/**
 * The global gravity field (`GravityController`): a direction that moves
 * towards a commanded target by spherical interpolation over
 * `transitionDuration` seconds, and a strength.
 *
 * `Field` is the controller's state as a value, `Advance` and `Command` are
 * its two transitions; the class `GravityController` holds the same state in
 * fields and its methods are proved to perform those transitions.
 */
module Gravity {
  import opened Vectors

  datatype Field = Field(
    direction: Vec,   // gravityDirection
    previous: Vec,    // previousGravityDirection
    target: Vec,      // targetGravityDirection
    progress: real,   // transitionProgress, 1 = transition complete
    strength: real,   // gravityStrength
    duration: real)   // transitionDuration

  /**
   * The field's invariant: progress lies in [0, 1] and, while a transition
   * is under way, the direction is the interpolation between the transition's
   * start and its target at the current progress.
   */
  predicate ValidField(f: Field) {
    && 0.0 <= f.progress <= 1.0
    && f.duration > 0.0
    && (f.progress < 1.0 ==> f.direction == Slerp(f.previous, f.target, f.progress))
  }

  /** `Mathf.Clamp01` */
  function Clamp01(x: real): (r: real)
    ensures 0.0 <= r <= 1.0
    ensures 0.0 <= x <= 1.0 ==> r == x
    ensures x < 0.0 ==> r == 0.0
    ensures x > 1.0 ==> r == 1.0
  {
    if x < 0.0 then 0.0 else if x > 1.0 then 1.0 else x
  }

  /** One `Update` of `dt` seconds. */
  function Advance(f: Field, dt: real): (g: Field)
    requires ValidField(f)
    ensures ValidField(g)
    ensures f.progress >= 1.0 ==> g == f
    ensures dt >= 0.0 ==> g.progress >= f.progress
    ensures f.progress < 1.0 && g.progress == 1.0 ==> g.direction == f.target
    ensures g.previous == f.previous && g.target == f.target
    ensures g.strength == f.strength && g.duration == f.duration
  {
    if f.progress < 1.0 then
      var p := Clamp01(f.progress + dt / f.duration);
      f.(progress := p, direction := Slerp(f.previous, f.target, p))
    else
      f
  }

  /** `SetGravityDirection(v)`: restart the transition from the current, possibly interpolated, direction. */
  function Command(f: Field, v: Vec): (g: Field)
    requires ValidField(f)
    ensures ValidField(g)
    ensures g.previous == f.direction && g.target == Normalize(v) && g.progress == 0.0
    ensures g.direction == f.direction
    ensures g.strength == f.strength && g.duration == f.duration
  {
    f.(previous := f.direction, target := Normalize(v), progress := 0.0)
  }

  /** `GetGravity()`: the normalised direction times the strength. */
  function GravityVector(f: Field): (g: Vec)
    ensures f.strength > 0.0 ==> Normalize(g) == Normalize(f.direction)
  {
    var g := Scale(Normalize(f.direction), f.strength);
    assert f.strength > 0.0 ==> Normalize(g) == Normalize(f.direction) by {
      if f.strength > 0.0 {
        NormalizeScaled(Normalize(f.direction), f.strength);
      }
    }
    g
  }

  /** A sequence of `Update`s, one per frame. */
  function Run(f: Field, dts: seq<real>): (g: Field)
    requires ValidField(f)
    ensures ValidField(g)
    decreases |dts|
  {
    if dts == [] then f else Run(Advance(f, dts[0]), dts[1..])
  }

  /** The progress the frames of `dts` add when no clamping happens. */
  function Elapsed(dts: seq<real>, duration: real): real
    requires duration > 0.0
    decreases |dts|
  {
    if dts == [] then 0.0 else dts[0] / duration + Elapsed(dts[1..], duration)
  }

  predicate NonNegative(dts: seq<real>) {
    forall i :: 0 <= i < |dts| ==> dts[i] >= 0.0
  }

  lemma {:induction false} ElapsedNonNegative(dts: seq<real>, duration: real)
    requires duration > 0.0 && NonNegative(dts)
    ensures Elapsed(dts, duration) >= 0.0
    decreases |dts|
  {
    if dts != [] {
      ElapsedNonNegative(dts[1..], duration);
    }
  }

  /**
   * Over frames of non-negative length, progress grows by the elapsed time
   * divided by the duration until it reaches 1, and stays there; strength,
   * duration and the transition's end points do not change.
   */
  lemma {:induction false} RunProgress(f: Field, dts: seq<real>)
    requires ValidField(f) && NonNegative(dts)
    ensures var g := Run(f, dts);
      && g.progress == (if f.progress + Elapsed(dts, f.duration) >= 1.0 then 1.0 else f.progress + Elapsed(dts, f.duration))
      && g.previous == f.previous && g.target == f.target
      && g.strength == f.strength && g.duration == f.duration
    decreases |dts|
  {
    if dts != [] {
      var f' := Advance(f, dts[0]);
      RunProgress(f', dts[1..]);
      ElapsedNonNegative(dts[1..], f.duration);
    }
  }

  /** A transition under way ends exactly at its target once enough time has passed. */
  lemma {:induction false} TransitionReachesTarget(f: Field, dts: seq<real>)
    requires ValidField(f) && NonNegative(dts) && f.progress < 1.0
    requires f.progress + Elapsed(dts, f.duration) >= 1.0
    ensures Run(f, dts).progress == 1.0 && Run(f, dts).direction == f.target
    decreases |dts|
  {
    RunProgress(f, dts);
    if dts != [] {
      var f' := Advance(f, dts[0]);
      if f'.progress < 1.0 {
        assert Elapsed(dts, f.duration) == dts[0] / f.duration + Elapsed(dts[1..], f.duration);
        TransitionReachesTarget(f', dts[1..]);
      } else {
        SettledRunIsIdle(f', dts[1..]);
      }
    }
  }

  /** `Update` changes nothing once the transition is complete. */
  lemma {:induction false} SettledRunIsIdle(f: Field, dts: seq<real>)
    requires ValidField(f) && f.progress == 1.0
    ensures Run(f, dts) == f
    decreases |dts|
  {
    if dts != [] {
      SettledRunIsIdle(Advance(f, dts[0]), dts[1..]);
    }
  }

  /**
   * A command followed by `transitionDuration` seconds' worth of frames
   * leaves gravity pointing along the normalised commanded direction, with
   * the strength unchanged.
   */
  lemma CommandThenSettle(f: Field, v: Vec, dts: seq<real>)
    requires ValidField(f) && NonNegative(dts)
    requires Elapsed(dts, f.duration) >= 1.0
    ensures Run(Command(f, v), dts).direction == Normalize(v)
    ensures Run(Command(f, v), dts).strength == f.strength
  {
    TransitionReachesTarget(Command(f, v), dts);
    RunProgress(Command(f, v), dts);
  }

  /** A command issued mid-transition starts from the interpolated direction, not from the old start. */
  lemma InterruptStartsFromCurrent(f: Field, v: Vec)
    requires ValidField(f) && f.progress < 1.0
    ensures Command(f, v).previous == Slerp(f.previous, f.target, f.progress)
  {
  }

  class GravityController {
    var gravityDirection: Vec
    const gravityStrength: real
    const transitionDuration: real
    var targetGravityDirection: Vec
    var transitionProgress: real
    var previousGravityDirection: Vec
    /** Every argument `SetGravityDirection` has received, oldest first. */
    ghost var commands: seq<Vec>

    function State(): Field
      reads this
    {
      Field(gravityDirection, previousGravityDirection, targetGravityDirection,
            transitionProgress, gravityStrength, transitionDuration)
    }

    ghost predicate Valid()
      reads this
    {
      ValidField(State())
    }

    /**
     * The inspector's values and the field initialisers, followed by `Awake`:
     * the target and the previous direction become the normalised configured
     * direction and the controller starts settled.
     */
    constructor Awake(direction: Vec, strength: real, duration: real)
      requires duration > 0.0
      ensures Valid()
      ensures gravityDirection == direction && gravityStrength == strength && transitionDuration == duration
      ensures targetGravityDirection == Normalize(direction) && previousGravityDirection == Normalize(direction)
      ensures transitionProgress == 1.0
      ensures commands == []
    {
      gravityDirection := direction;
      gravityStrength := strength;
      transitionDuration := duration;
      transitionProgress := 1.0;
      targetGravityDirection := Normalize(direction);
      previousGravityDirection := targetGravityDirection;
      commands := [];
    }

    /** One frame of `dt` seconds (`Time.deltaTime`). */
    method Update(dt: real)
      requires Valid()
      modifies this
      ensures Valid()
      ensures State() == Advance(old(State()), dt)
      ensures commands == old(commands)
    {
      if transitionProgress < 1.0 {
        transitionProgress := transitionProgress + dt / transitionDuration;
        transitionProgress := Clamp01(transitionProgress);
        gravityDirection := Slerp(previousGravityDirection, targetGravityDirection, transitionProgress);
      }
    }

    function GetGravity(): (g: Vec)
      reads this
      ensures g == GravityVector(State())
    {
      Scale(Normalize(gravityDirection), gravityStrength)
    }

    method SetGravityDirection(newDirection: Vec)
      requires Valid()
      modifies this
      ensures Valid()
      ensures State() == Command(old(State()), newDirection)
      ensures commands == old(commands) + [newDirection]
    {
      previousGravityDirection := gravityDirection;
      targetGravityDirection := Normalize(newDirection);
      transitionProgress := 0.0;
      commands := commands + [newDirection];
    }

    /** The `(float x, float y, float z)` overload. */
    method SetGravityDirectionXYZ(x: real, y: real, z: real)
      requires Valid()
      modifies this
      ensures Valid()
      ensures State() == Command(old(State()), Vector(x, y, z))
      ensures commands == old(commands) + [Vector(x, y, z)]
    {
      SetGravityDirection(Vector(x, y, z));
    }

    method RotateGravityAroundAxis(axis: Vec, degrees: real)
      requires Valid()
      modifies this
      ensures Valid()
      ensures State() == Command(old(State()), Rotate(AngleAxis(degrees, axis), old(gravityDirection)))
      ensures commands == old(commands) + [Rotate(AngleAxis(degrees, axis), old(gravityDirection))]
    {
      var rotation := AngleAxis(degrees, axis);
      var newDirection := Rotate(rotation, gravityDirection);
      SetGravityDirection(newDirection);
    }
  }
}
