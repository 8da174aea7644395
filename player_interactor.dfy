/**
 * The player's interactor (`PlayerInteractor`): the interactor of
 * `Objects/Interaction/` extended with carrying one object at a time. While
 * something is carried, interacting and shifting are disabled.
 *
 * The base interactor is a separate object here (`interactor`), reached
 * through its methods. The hovered pickupable, which the component reads as
 * `HoveredPickupable`, comes in as an input of the methods that need it.
 */
module PlayerInteraction {
  import opened Vectors
  import opened Engine
  import opened Interaction

  /** An `IPickupable` component and the game object it sits on. */
  datatype PickupableRef = PickupableRef(id: nat, gameObject: GameObject)

  /** A notification sent to a carried object. */
  datatype PickupCall = PickedUp(p: PickupableRef) | Dropped(p: PickupableRef)

  /** The scroll direction `OnShift` forwards: +1 for a positive value, -1 otherwise (zero included). */
  function ShiftDirection(value: real): (d: int)
    ensures d == 1 || d == -1
    ensures d == 1 <==> value > 0.0
  {
    if value > 0.0 then 1 else -1
  }

  /**
   * The carry state after an `OnPickup` input and the notifications sent:
   * a release does nothing, a press drops what is carried or picks up what
   * is hovered.
   */
  function PickupStep(carried: Option<PickupableRef>, pressed: bool, hovered: Option<PickupableRef>): (r: (Option<PickupableRef>, seq<PickupCall>))
    ensures !pressed ==> r == (carried, [])
    ensures pressed && carried.Some? ==> r == (None, [Dropped(carried.value)])
    ensures pressed && carried.None? && hovered.None? ==> r == (None, [])
    ensures pressed && carried.None? && hovered.Some? ==> r == (hovered, [PickedUp(hovered.value)])
  {
    if !pressed then (carried, [])
    else if carried.Some? then (None, [Dropped(carried.value)])
    else if hovered.Some? then (hovered, [PickedUp(hovered.value)])
    else (None, [])
  }

  /** Two presses over a hovered pickupable pick it up and put it down again. */
  lemma PickupThenDrop(p: PickupableRef, hovered: Option<PickupableRef>)
    ensures var first := PickupStep(None, true, Some(p));
      var second := PickupStep(first.0, true, hovered);
      && first.0 == Some(p)
      && second.0 == None
      && first.1 + second.1 == [PickedUp(p), Dropped(p)]
  {
  }

  /** The carry state after a sequence of `OnPickup` inputs (press, hovered), with all notifications sent. */
  function PickupRun(carried: Option<PickupableRef>, inputs: seq<(bool, Option<PickupableRef>)>): (r: (Option<PickupableRef>, seq<PickupCall>))
    decreases |inputs|
  {
    if inputs == [] then (carried, [])
    else
      var first := PickupStep(carried, inputs[0].0, inputs[0].1);
      var rest := PickupRun(first.0, inputs[1..]);
      (rest.0, first.1 + rest.1)
  }

  /**
   * The notifications of a run alternate between pickups and drops; a drop
   * always names the object picked up just before it, and the object still
   * carried at the end is the one picked up last and not dropped.
   */
  ghost predicate Alternates(carried: Option<PickupableRef>, calls: seq<PickupCall>, final: Option<PickupableRef>)
    decreases |calls|
  {
    if calls == [] then final == carried
    else match calls[0]
      case PickedUp(p) => carried.None? && Alternates(Some(p), calls[1..], final)
      case Dropped(p) => carried == Some(p) && Alternates(None, calls[1..], final)
  }

  lemma {:induction false} PickupRunAlternates(carried: Option<PickupableRef>, inputs: seq<(bool, Option<PickupableRef>)>)
    ensures Alternates(carried, PickupRun(carried, inputs).1, PickupRun(carried, inputs).0)
    decreases |inputs|
  {
    if inputs != [] {
      var first := PickupStep(carried, inputs[0].0, inputs[0].1);
      var rest := PickupRun(first.0, inputs[1..]);
      PickupRunAlternates(first.0, inputs[1..]);
      var all := first.1 + rest.1;
      if first.1 != [] {
        assert all[0] == first.1[0];
        assert all[1..] == rest.1;
      } else {
        assert all == rest.1;
      }
    }
  }

  class PlayerInteractor {
    /** The base interactor's state and calls. */
    const interactor: Interactor
    /** The player's own transform. */
    const transform: Transform
    const pickupHoldPoint: Transform?
    const dropDistance: real
    var carriedObject: GameObject?
    var carriedPickupable: Option<PickupableRef>
    /** The notifications sent to pickupables so far, oldest first. */
    ghost var pickupCalls: seq<PickupCall>

    /** The carried object is the game object of the carried pickupable; both are set or both are clear. */
    ghost predicate Valid()
      reads this
    {
      && (carriedObject == null <==> carriedPickupable.None?)
      && (carriedPickupable.Some? ==> carriedObject == carriedPickupable.value.gameObject)
    }

    constructor (interactor: Interactor, transform: Transform, pickupHoldPoint: Transform?, dropDistance: real)
      ensures this.interactor == interactor && this.transform == transform
      ensures this.pickupHoldPoint == pickupHoldPoint && this.dropDistance == dropDistance
      ensures carriedObject == null && carriedPickupable.None? && pickupCalls == []
      ensures Valid()
    {
      this.interactor := interactor;
      this.transform := transform;
      this.pickupHoldPoint := pickupHoldPoint;
      this.dropDistance := dropDistance;
      carriedObject := null;
      carriedPickupable := None;
      pickupCalls := [];
    }

    /** The interact input: forwarded to the base interactor only on a press while nothing is carried. */
    method OnInteract(pressed: bool)
      modifies interactor
      ensures pressed && carriedObject == null ==>
        && interactor.State() == InteractStep(old(interactor.State())).next
        && interactor.calls == old(interactor.calls) + InteractStep(old(interactor.State())).calls
      ensures !(pressed && carriedObject == null) ==> unchanged(interactor)
    {
      if pressed && carriedObject == null {
        interactor.Interact();
      }
    }

    /** The scroll input: forwarded as +1 or -1 only while nothing is carried. */
    method OnShift(value: real)
      modifies interactor
      ensures carriedObject == null ==>
        && interactor.State() == old(interactor.State())
        && interactor.calls == old(interactor.calls) + ScrollStep(old(interactor.State()), ShiftDirection(value)).calls
      ensures carriedObject != null ==> unchanged(interactor)
    {
      if carriedObject == null {
        var direction := ShiftDirection(value);
        interactor.Scroll(direction);
      }
    }

    /**
     * The pickup input; `hovered` is `HoveredPickupable`. The carry state
     * and the notifications follow `PickupStep`.
     */
    method OnPickup(pressed: bool, hovered: Option<PickupableRef>)
      requires Valid()
      modifies this, if carriedObject != null then {carriedObject.transform} else {},
        if hovered.Some? then {hovered.value.gameObject.transform} else {}
      ensures Valid()
      ensures carriedPickupable == PickupStep(old(carriedPickupable), pressed, hovered).0
      ensures pickupCalls == old(pickupCalls) + PickupStep(old(carriedPickupable), pressed, hovered).1
      ensures !pressed ==>
        && unchanged(this)
        && (old(carriedObject) != null ==> unchanged(old(carriedObject).transform))
        && (hovered.Some? ==> unchanged(hovered.value.gameObject.transform))
      ensures pressed && old(carriedObject) != null ==>
        && old(carriedObject).transform.parent == null
        && old(carriedObject).transform.position == Add(old(transform.position), Scale(old(transform.forward), dropDistance))
        && old(carriedObject).transform.localRotation == old(carriedObject.transform.localRotation)
        && (hovered.Some? && hovered.value.gameObject.transform != old(carriedObject).transform ==>
              unchanged(hovered.value.gameObject.transform))
      ensures pressed && old(carriedObject) == null && hovered.Some? ==>
        && hovered.value.gameObject.transform.parent == pickupHoldPoint
        && hovered.value.gameObject.transform.localPosition == Zero
        && hovered.value.gameObject.transform.localRotation == Identity
      ensures pressed && old(carriedObject) == null && hovered.None? ==> unchanged(this)
    {
      if !pressed {
        return;
      }
      if carriedObject != null {
        DropObject();
      } else {
        TryPickupObject(hovered);
      }
    }

    /** Picks up `hovered`, if any, and parents it at the hold point with no offset or rotation. */
    method TryPickupObject(hovered: Option<PickupableRef>)
      requires Valid()
      modifies this, if hovered.Some? then {hovered.value.gameObject.transform} else {}
      ensures Valid()
      ensures hovered.None? ==> unchanged(this)
      ensures hovered.Some? ==>
        && carriedObject == hovered.value.gameObject
        && carriedPickupable == hovered
        && pickupCalls == old(pickupCalls) + [PickedUp(hovered.value)]
        && carriedObject.transform.parent == pickupHoldPoint
        && carriedObject.transform.localPosition == Zero
        && carriedObject.transform.localRotation == Identity
    {
      if hovered.Some? {
        var pickupable := hovered.value;
        carriedObject := pickupable.gameObject;
        carriedPickupable := hovered;
        carriedObject.transform.parent := pickupHoldPoint;
        carriedObject.transform.localPosition := Zero;
        carriedObject.transform.localRotation := Identity;
        pickupCalls := pickupCalls + [PickedUp(pickupable)];
      }
    }

    /** Puts the carried object down `dropDistance` in front of the player, unparented. */
    method DropObject()
      requires Valid()
      modifies this, if carriedObject != null then {carriedObject.transform} else {}
      ensures Valid()
      ensures old(carriedObject) == null ==> unchanged(this)
      ensures old(carriedObject) != null ==>
        && carriedObject == null && carriedPickupable.None?
        && pickupCalls == old(pickupCalls) + [Dropped(old(carriedPickupable).value)]
        && old(carriedObject).transform.parent == null
        && old(carriedObject).transform.position == Add(old(transform.position), Scale(old(transform.forward), dropDistance))
        && old(carriedObject).transform.localRotation == old(carriedObject.transform.localRotation)
    {
      if carriedObject == null {
        return;
      }
      var dropPosition := Add(transform.position, Scale(transform.forward, dropDistance));
      carriedObject.transform.parent := null;
      carriedObject.transform.position := dropPosition;
      if carriedPickupable.Some? {
        pickupCalls := pickupCalls + [Dropped(carriedPickupable.value)];
      }
      carriedObject := null;
      carriedPickupable := None;
    }
  }
}
