/**
 * A trigger volume that commands the global field to a new direction when
 * the player enters it, or when the player leaves it (`GravityRampTrigger`).
 */
module GravityRamp {
  import opened Vectors
  import opened Gravity

  const PlayerTag: string := "Player"

  /** Which of the two trigger callbacks the engine delivered. */
  datatype Edge = Enter | Exit

  /** Whether a callback of kind `edge` by a collider tagged `tag` changes gravity. */
  function Fires(triggerOnEnter: bool, edge: Edge, tag: string): (b: bool)
  {
    tag == PlayerTag && (if triggerOnEnter then edge == Enter else edge == Exit)
  }

  /** For the player exactly one of the two callbacks fires, and never for anything else. */
  lemma FiresOnExactlyOneEdge(triggerOnEnter: bool, tag: string)
    ensures tag != PlayerTag ==> !Fires(triggerOnEnter, Enter, tag) && !Fires(triggerOnEnter, Exit, tag)
    ensures tag == PlayerTag ==> Fires(triggerOnEnter, Enter, tag) != Fires(triggerOnEnter, Exit, tag)
    ensures Fires(triggerOnEnter, Enter, tag) ==> triggerOnEnter
    ensures Fires(triggerOnEnter, Exit, tag) ==> !triggerOnEnter
  {
  }

  /** The direction `ApplyGravityChange` commands. */
  function RampDirection(useRampOrientation: bool, rampUp: Vec, configured: Vec): (d: Vec)
    ensures useRampOrientation ==> d == Neg(rampUp)
    ensures !useRampOrientation ==> d == Normalize(configured)
  {
    if useRampOrientation then Neg(rampUp) else Normalize(configured)
  }

  class GravityRampTrigger {
    const gravityDirection: Vec
    const useRampOrientation: bool
    const triggerOnEnter: bool
    /** The trigger's `transform.up`. */
    const rampUp: Vec

    constructor (gravityDirection: Vec, useRampOrientation: bool, triggerOnEnter: bool, rampUp: Vec)
      ensures this.gravityDirection == gravityDirection && this.useRampOrientation == useRampOrientation
      ensures this.triggerOnEnter == triggerOnEnter && this.rampUp == rampUp
    {
      this.gravityDirection := gravityDirection;
      this.useRampOrientation := useRampOrientation;
      this.triggerOnEnter := triggerOnEnter;
      this.rampUp := rampUp;
    }

    method OnTriggerEnter(otherTag: string, field: GravityController)
      requires field.Valid()
      modifies field
      ensures field.Valid()
      ensures Fires(triggerOnEnter, Enter, otherTag) ==>
        && field.State() == Command(old(field.State()), RampDirection(useRampOrientation, rampUp, gravityDirection))
        && field.commands == old(field.commands) + [RampDirection(useRampOrientation, rampUp, gravityDirection)]
      ensures !Fires(triggerOnEnter, Enter, otherTag) ==> unchanged(field)
    {
      if triggerOnEnter && otherTag == PlayerTag {
        ApplyGravityChange(field);
      }
    }

    method OnTriggerExit(otherTag: string, field: GravityController)
      requires field.Valid()
      modifies field
      ensures field.Valid()
      ensures Fires(triggerOnEnter, Exit, otherTag) ==>
        && field.State() == Command(old(field.State()), RampDirection(useRampOrientation, rampUp, gravityDirection))
        && field.commands == old(field.commands) + [RampDirection(useRampOrientation, rampUp, gravityDirection)]
      ensures !Fires(triggerOnEnter, Exit, otherTag) ==> unchanged(field)
    {
      if !triggerOnEnter && otherTag == PlayerTag {
        ApplyGravityChange(field);
      }
    }

    /** Issues exactly one `SetGravityDirection` call. */
    method ApplyGravityChange(field: GravityController)
      requires field.Valid()
      modifies field
      ensures field.Valid()
      ensures field.State() == Command(old(field.State()), RampDirection(useRampOrientation, rampUp, gravityDirection))
      ensures field.commands == old(field.commands) + [RampDirection(useRampOrientation, rampUp, gravityDirection)]
    {
      var newGravityDirection;
      if useRampOrientation {
        newGravityDirection := Neg(rampUp);
      } else {
        newGravityDirection := Normalize(gravityDirection);
      }
      field.SetGravityDirection(newGravityDirection);
    }
  }
}
