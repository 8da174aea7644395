/**
 * A plain carryable object (`PickupableObject`): picking it up and dropping
 * it are guarded by `isPickedUp`, so each is ignored when repeated.
 */
module Pickupable {
  import opened Engine

  /** The non-null entries of a collider array. */
  function Present(cs: seq<Collider?>): set<Collider> {
    set c: Collider | c in cs
  }

  class PickupableObject {
    const transform: Transform
    const rb: Rigidbody?
    /** `GetComponentsInChildren<Collider>()` as captured by `Awake`; entries may be null. */
    const colliders: seq<Collider?>
    var originalParent: Transform?
    var isPickedUp: bool

    /** The field initialisers and `Awake`. */
    constructor Awake(transform: Transform, rb: Rigidbody?, colliders: seq<Collider?>)
      ensures this.transform == transform && this.rb == rb && this.colliders == colliders
      ensures !isPickedUp && originalParent == null
    {
      this.transform := transform;
      this.rb := rb;
      this.colliders := colliders;
      originalParent := null;
      isPickedUp := false;
    }

    method OnPickup(picker: GameObject)
      modifies this, rb, Present(colliders)
      ensures old(isPickedUp) ==> unchanged(this) && unchanged(Present(colliders)) && (rb != null ==> unchanged(rb))
      ensures !old(isPickedUp) ==>
        && isPickedUp
        && originalParent == transform.parent
        && (rb != null ==> rb.isKinematic && rb.useGravity == old(rb.useGravity) && rb.accelerations == old(rb.accelerations))
        && (forall c :: c in Present(colliders) ==> !c.enabled)
    {
      if isPickedUp {
        return;
      }
      isPickedUp := true;
      originalParent := transform.parent;
      if rb != null {
        rb.isKinematic := true;
      }
      if |colliders| > 0 {
        var i := 0;
        while i < |colliders|
          invariant 0 <= i <= |colliders|
          invariant forall j :: 0 <= j < i && colliders[j] != null ==> !colliders[j].enabled
          modifies Present(colliders)
        {
          var col := colliders[i];
          if col != null {
            col.enabled := false;
          }
          i := i + 1;
        }
      }
    }

    method OnDrop(picker: GameObject)
      modifies this, rb, Present(colliders)
      ensures !old(isPickedUp) ==> unchanged(this) && unchanged(Present(colliders)) && (rb != null ==> unchanged(rb))
      ensures old(isPickedUp) ==>
        && !isPickedUp
        && originalParent == old(originalParent)
        && (rb != null ==> !rb.isKinematic && rb.useGravity == old(rb.useGravity) && rb.accelerations == old(rb.accelerations))
        && (forall c :: c in Present(colliders) ==> c.enabled)
    {
      if !isPickedUp {
        return;
      }
      isPickedUp := false;
      if rb != null {
        rb.isKinematic := false;
      }
      if |colliders| > 0 {
        var i := 0;
        while i < |colliders|
          invariant 0 <= i <= |colliders|
          invariant forall j :: 0 <= j < i && colliders[j] != null ==> colliders[j].enabled
          modifies Present(colliders)
        {
          var col := colliders[i];
          if col != null {
            col.enabled := true;
          }
          i := i + 1;
        }
      }
    }
  }
}
