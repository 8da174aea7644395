/**
 * A seed that can be carried (`SeedObject`). While carried it copies the
 * carrier's gravity direction every frame; when dropped it keeps the last
 * direction written.
 */
module Seed {
  import opened Vectors
  import opened Engine
  import opened GravityBody

  /** The colliders of `all` that are not triggers, in their original order. */
  function NonTriggers(all: seq<Collider>): (r: seq<Collider>)
    ensures |r| <= |all|
    ensures forall c :: c in r ==> c in all && !c.isTrigger
    ensures forall c :: c in all && !c.isTrigger ==> c in r
    decreases |all|
  {
    if all == [] then []
    else if all[|all| - 1].isTrigger then NonTriggers(all[..|all| - 1])
    else NonTriggers(all[..|all| - 1]) + [all[|all| - 1]]
  }

  /**
   * Filtering distributes over concatenation: the colliders that are kept
   * appear in the order they had in the input.
   */
  lemma {:induction false} NonTriggersAppend(a: seq<Collider>, b: seq<Collider>)
    ensures NonTriggers(a + b) == NonTriggers(a) + NonTriggers(b)
    decreases |b|
  {
    if b == [] {
      assert a + b == a;
    } else {
      var b' := b[..|b| - 1];
      assert (a + b)[..|a + b| - 1] == a + b';
      NonTriggersAppend(a, b');
    }
  }

  /** The list-building loop of `Awake`: keep the colliders that are not triggers. */
  method FilterPhysicsColliders(allColliders: seq<Collider>) returns (physics: seq<Collider>)
    ensures physics == NonTriggers(allColliders)
  {
    physics := [];
    var i := 0;
    while i < |allColliders|
      invariant 0 <= i <= |allColliders|
      invariant physics == NonTriggers(allColliders[..i])
    {
      assert allColliders[..i + 1][..i] == allColliders[..i];
      if !allColliders[i].isTrigger {
        physics := physics + [allColliders[i]];
      }
      i := i + 1;
    }
    assert allColliders[..i] == allColliders;
  }

  function ColliderSet(cs: seq<Collider>): set<Collider> {
    set c | c in cs
  }

  class SeedObject {
    /** The game object the component sits on. */
    const gameObject: GameObject
    const pickupTrigger: Collider?
    const gravityBody: CustomGravityBody?
    const rb: Rigidbody?
    var physicsColliders: seq<Collider>
    var isPickedUp: bool
    var currentPicker: GameObject?

    constructor (gameObject: GameObject, pickupTrigger: Collider?, gravityBody: CustomGravityBody?, rb: Rigidbody?)
      ensures this.gameObject == gameObject
      ensures this.pickupTrigger == pickupTrigger && this.gravityBody == gravityBody && this.rb == rb
      ensures physicsColliders == [] && !isPickedUp && currentPicker == null
    {
      this.gameObject := gameObject;
      this.pickupTrigger := pickupTrigger;
      this.gravityBody := gravityBody;
      this.rb := rb;
      physicsColliders := [];
      isPickedUp := false;
      currentPicker := null;
    }

    /**
     * `allColliders` is what `GetComponentsInChildren<Collider>()` returns and
     * `up` the seed's `transform.up`.
     */
    method Awake(allColliders: seq<Collider>, up: Vec)
      modifies this, gravityBody
      ensures physicsColliders == NonTriggers(allColliders)
      ensures gravityBody != null ==> gravityBody.customGravityDirection == Normalize(Neg(up))
      ensures isPickedUp == old(isPickedUp) && currentPicker == old(currentPicker)
    {
      physicsColliders := FilterPhysicsColliders(allColliders);
      SetGravityDirection(Neg(up));
    }

    /**
     * One frame. `pickerBody` is what `currentPicker.GetComponent<CustomGravityBody>()`
     * returns this frame; it is not looked at unless the seed is held.
     */
    method Update(pickerBody: CustomGravityBody?)
      modifies gravityBody
      ensures isPickedUp && currentPicker != null && pickerBody != null && gravityBody != null ==>
        gravityBody.customGravityDirection == old(pickerBody.GetGravityDirection())
      ensures !(isPickedUp && currentPicker != null && pickerBody != null) && gravityBody != null ==> unchanged(gravityBody)
    {
      if isPickedUp && currentPicker != null {
        if pickerBody != null {
          SetGravityDirection(pickerBody.GetGravityDirection());
        }
      }
    }

    method SetGravityDirection(direction: Vec)
      modifies gravityBody
      ensures gravityBody != null ==> gravityBody.customGravityDirection == Normalize(direction)
    {
      if gravityBody != null {
        gravityBody.SetCustomGravityDirection(Normalize(direction));
      }
    }

    function GetGravityDirection(): (d: Vec)
      reads gravityBody, if gravityBody != null then {gravityBody.controller} else {}
      ensures gravityBody == null ==> d == Down
      ensures gravityBody != null ==> d == gravityBody.GetGravityDirection()
    {
      if gravityBody != null then gravityBody.GetGravityDirection() else Down
    }

    method OnPickup(picker: GameObject)
      modifies this, rb, ColliderSet(physicsColliders), pickupTrigger
      ensures isPickedUp && currentPicker == picker
      ensures physicsColliders == old(physicsColliders)
      ensures rb != null ==> rb.isKinematic && rb.useGravity == old(rb.useGravity) && rb.accelerations == old(rb.accelerations)
      ensures forall c :: c in physicsColliders ==> !c.enabled
      ensures pickupTrigger != null ==> !pickupTrigger.enabled
    {
      isPickedUp := true;
      currentPicker := picker;
      if rb != null {
        rb.isKinematic := true;
      }
      var i := 0;
      while i < |physicsColliders|
        invariant 0 <= i <= |physicsColliders|
        invariant forall j :: 0 <= j < i ==> !physicsColliders[j].enabled
        modifies ColliderSet(physicsColliders)
      {
        physicsColliders[i].enabled := false;
        i := i + 1;
      }
      if pickupTrigger != null {
        pickupTrigger.enabled := false;
      }
    }

    /** Dropping restores physics and leaves the gravity body untouched. */
    method OnDrop(picker: GameObject)
      modifies this, rb, ColliderSet(physicsColliders), pickupTrigger
      ensures !isPickedUp && currentPicker == null
      ensures physicsColliders == old(physicsColliders)
      ensures rb != null ==> !rb.isKinematic && rb.useGravity == old(rb.useGravity) && rb.accelerations == old(rb.accelerations)
      ensures forall c :: c in physicsColliders ==> c.enabled
      ensures pickupTrigger != null ==> pickupTrigger.enabled
      ensures gravityBody != null ==> unchanged(gravityBody)
    {
      isPickedUp := false;
      currentPicker := null;
      if rb != null {
        rb.isKinematic := false;
      }
      var i := 0;
      while i < |physicsColliders|
        invariant 0 <= i <= |physicsColliders|
        invariant forall j :: 0 <= j < i ==> physicsColliders[j].enabled
        modifies ColliderSet(physicsColliders)
      {
        physicsColliders[i].enabled := true;
        i := i + 1;
      }
      if pickupTrigger != null {
        pickupTrigger.enabled := true;
      }
    }
  }
}
