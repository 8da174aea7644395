/**
 * A rigid body that takes its gravity from the global field
 * (`CustomGravityBody`). The field is the result of the global lookup
 * `GravityController.Instance`, given here as a reference that may be null.
 */
module GravityBody {
  import opened Vectors
  import opened Engine
  import opened Gravity

  class CustomGravityBody {
    const rb: Rigidbody
    const controller: GravityController?
    /**
     * The last value passed to `SetCustomGravityDirection`. The component's
     * file does not declare that setter although `SeedObject` calls it; the
     * model records what was written and nothing reads it back.
     */
    var customGravityDirection: Vec

    constructor (rb: Rigidbody, controller: GravityController?)
      ensures this.rb == rb && this.controller == controller
    {
      this.rb := rb;
      this.controller := controller;
    }

    /** The engine's own gravity is switched off for this body. */
    method Awake()
      modifies rb
      ensures !rb.useGravity
      ensures rb.isKinematic == old(rb.isKinematic) && rb.accelerations == old(rb.accelerations)
    {
      rb.useGravity := false;
    }

    /** One physics step: the field's gravity is added as an acceleration, or nothing without a field. */
    method FixedUpdate()
      modifies rb
      ensures controller == null ==> rb.accelerations == old(rb.accelerations)
      ensures controller != null ==> rb.accelerations == old(rb.accelerations) + [controller.GetGravity()]
      ensures rb.useGravity == old(rb.useGravity) && rb.isKinematic == old(rb.isKinematic)
    {
      if controller != null {
        var gravity := controller.GetGravity();
        rb.accelerations := rb.accelerations + [gravity];
      }
    }

    /**
     * The normalised gravity of the field, or straight down without one.
     * For a positive strength it is the field's normalised direction.
     */
    function GetGravityDirection(): (d: Vec)
      reads controller
      ensures IsNormal(d)
      ensures controller == null ==> d == Down
      ensures controller != null ==> d == Normalize(controller.GetGravity())
      ensures controller != null && controller.gravityStrength > 0.0 ==> d == Normalize(controller.gravityDirection)
    {
      if controller != null then Normalize(controller.GetGravity()) else Down
    }

    /** "Up" is the negation of the gravity direction, and negating it gives the gravity direction back. */
    function GetUpDirection(): (u: Vec)
      reads controller
      ensures Neg(u) == GetGravityDirection()
      ensures controller == null ==> u == Up
    {
      NegInvolutive(GetGravityDirection());
      Neg(GetGravityDirection())
    }

    method SetCustomGravityDirection(direction: Vec)
      modifies this`customGravityDirection
      ensures customGravityDirection == direction
    {
      customGravityDirection := direction;
    }
  }
}
