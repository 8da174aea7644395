/**
 * Switches one state of a shiftable object on or off as a whole
 * (`ShiftStateController`): its mesh renderers, its colliders and its
 * capabilities, all found among its children at `Start`.
 */
module ShiftStates {
  import opened Engine

  /** A `ShiftCapability` component; what its `Enable` and `Disable` do is up to the subclass. */
  datatype Capability = Capability(id: nat)

  datatype CapabilityCall = Enable(c: Capability) | Disable(c: Capability)

  /** The call `SetActive(active)` makes on capability `c`. */
  function Switch(active: bool): Capability -> CapabilityCall
  {
    c => if active then Enable(c) else Disable(c)
  }

  class ShiftStateController {
    var meshRenderers: seq<Renderer>
    var colliders: seq<Collider>
    var capabilities: seq<Capability>
    /** The calls made on capabilities so far, oldest first. */
    ghost var capabilityCalls: seq<CapabilityCall>

    /** `Start`: the three lookups among the children, given as arguments. */
    constructor Start(meshRenderers: seq<Renderer>, colliders: seq<Collider>, capabilities: seq<Capability>)
      ensures this.meshRenderers == meshRenderers && this.colliders == colliders && this.capabilities == capabilities
      ensures capabilityCalls == []
    {
      this.meshRenderers := meshRenderers;
      this.colliders := colliders;
      this.capabilities := capabilities;
      capabilityCalls := [];
    }

    function RendererSet(): set<Renderer>
      reads this
    {
      set r | r in meshRenderers
    }

    function ColliderSet(): set<Collider>
      reads this
    {
      set c | c in colliders
    }

    /**
     * Every renderer and every collider ends up enabled exactly when `active`
     * (so a second call with the same value changes no flag), and each
     * capability, in order, gets one `Enable` or one `Disable`.
     */
    method SetActive(active: bool)
      modifies RendererSet(), ColliderSet(), this`capabilityCalls
      ensures forall r :: r in meshRenderers ==> r.enabled == active
      ensures forall r :: r in meshRenderers ==> r.renderingLayerMask == old(r.renderingLayerMask) && r.color == old(r.color)
      ensures forall c :: c in colliders ==> c.enabled == active
      ensures capabilityCalls == old(capabilityCalls) + MapSeq(capabilities, Switch(active))
    {
      SetRenderersEnabled(active);
      SetCollidersEnabled(active);
      SwitchCapabilities(active);
    }

    /** The first loop of `SetActive`. */
    method SetRenderersEnabled(active: bool)
      modifies RendererSet()
      ensures forall r :: r in meshRenderers ==> r.enabled == active
      ensures forall r :: r in meshRenderers ==> r.renderingLayerMask == old(r.renderingLayerMask) && r.color == old(r.color)
    {
      var i := 0;
      while i < |meshRenderers|
        invariant 0 <= i <= |meshRenderers|
        invariant forall j :: 0 <= j < i ==> meshRenderers[j].enabled == active
        invariant forall r :: r in meshRenderers ==> r.renderingLayerMask == old(r.renderingLayerMask) && r.color == old(r.color)
      {
        meshRenderers[i].enabled := active;
        i := i + 1;
      }
    }

    /** The second loop of `SetActive`. */
    method SetCollidersEnabled(active: bool)
      modifies ColliderSet()
      ensures forall c :: c in colliders ==> c.enabled == active
    {
      var i := 0;
      while i < |colliders|
        invariant 0 <= i <= |colliders|
        invariant forall j :: 0 <= j < i ==> colliders[j].enabled == active
      {
        colliders[i].enabled := active;
        i := i + 1;
      }
    }

    /** The third loop of `SetActive`. */
    method SwitchCapabilities(active: bool)
      modifies this`capabilityCalls
      ensures capabilityCalls == old(capabilityCalls) + MapSeq(capabilities, Switch(active))
    {
      var i := 0;
      while i < |capabilities|
        invariant 0 <= i <= |capabilities|
        invariant capabilityCalls == old(capabilityCalls) + MapSeq(capabilities[..i], Switch(active))
      {
        assert capabilities[..i + 1][..i] == capabilities[..i];
        if active {
          capabilityCalls := capabilityCalls + [Enable(capabilities[i])];
        } else {
          capabilityCalls := capabilityCalls + [Disable(capabilities[i])];
        }
        i := i + 1;
      }
      assert capabilities[..i] == capabilities;
    }
  }
}
