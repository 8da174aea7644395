/**
 * The colour focus effect (`ColorFocusEffect`): the renderers' colours are
 * captured once, at `Start`, into a parallel array; focus paints every
 * renderer in one colour and unfocus paints the captured colours back.
 */
module ColorFocus {
  import opened Engine

  class ColorFocusEffect {
    const baseObject: GameObject?
    const newColor: Color
    /** `None` until `Start` has run. */
    var renderers: Option<seq<Renderer>>
    var originalColors: array?<Color>

    /** After `Start`, the captured colours run parallel to the renderers, which are distinct. */
    ghost predicate Valid()
      reads this
    {
      renderers.Some? ==> Distinct(renderers.value) && originalColors != null && originalColors.Length == |renderers.value|
    }

    function RendererSet(): set<Renderer>
      reads this
    {
      if renderers.Some? then set r | r in renderers.value else {}
    }

    constructor (baseObject: GameObject?, newColor: Color)
      ensures this.baseObject == baseObject && this.newColor == newColor
      ensures renderers.None? && originalColors == null
      ensures Valid()
    {
      this.baseObject := baseObject;
      this.newColor := newColor;
      renderers := None;
      originalColors := null;
    }

    /**
     * Captures entry `i` as renderer `i`'s colour. Without a base object the
     * lookup throws before anything is assigned, so the component stays as it
     * was (before a first `Start`, with no renderers, and both handlers then
     * do nothing).
     */
    method Start()
      requires baseObject != null ==> Distinct(baseObject.childRenderers)
      modifies this
      ensures baseObject == null ==> unchanged(this)
      ensures baseObject != null ==>
        && Valid()
        && renderers == Some(baseObject.childRenderers)
        && fresh(originalColors)
        && forall i :: 0 <= i < originalColors.Length ==> originalColors[i] == baseObject.childRenderers[i].color
    {
      if baseObject == null {
        return;
      }
      var rs := baseObject.childRenderers;
      renderers := Some(rs);
      var colors := new Color[|rs|];
      var i := 0;
      while i < |rs|
        invariant 0 <= i <= |rs|
        invariant forall j :: 0 <= j < i ==> colors[j] == rs[j].color
        modifies colors
      {
        colors[i] := rs[i].color;
        i := i + 1;
      }
      originalColors := colors;
    }

    /** Every renderer takes the focus colour; the captured colours stay as they are. Before `Start`, nothing happens. */
    method OnFocus()
      requires Valid()
      modifies RendererSet()
      ensures forall r :: r in RendererSet() ==>
        r.color == newColor && r.enabled == old(r.enabled) && r.renderingLayerMask == old(r.renderingLayerMask)
      ensures originalColors != null ==> unchanged(originalColors)
    {
      if renderers.None? {
        return;
      }
      var rs := renderers.value;
      var i := 0;
      while i < |rs|
        invariant 0 <= i <= |rs|
        invariant forall j :: 0 <= j < i ==> rs[j].color == newColor
        invariant forall r :: r in rs ==> r.enabled == old(r.enabled) && r.renderingLayerMask == old(r.renderingLayerMask)
      {
        rs[i].color := newColor;
        i := i + 1;
      }
    }

    /** Renderer `i` takes captured colour `i` back. Before `Start`, nothing happens. */
    method OnUnfocus()
      requires Valid()
      modifies RendererSet()
      ensures renderers.Some? ==> forall i :: 0 <= i < |renderers.value| ==>
        renderers.value[i].color == originalColors[i]
      ensures forall r :: r in RendererSet() ==> r.enabled == old(r.enabled) && r.renderingLayerMask == old(r.renderingLayerMask)
      ensures originalColors != null ==> unchanged(originalColors)
    {
      if renderers.None? {
        return;
      }
      var rs := renderers.value;
      var i := 0;
      while i < |rs|
        invariant 0 <= i <= |rs|
        invariant forall j :: 0 <= j < i ==> rs[j].color == originalColors[j]
        invariant forall r :: r in rs ==> r.enabled == old(r.enabled) && r.renderingLayerMask == old(r.renderingLayerMask)
      {
        assert forall j :: 0 <= j < i ==> rs[j] != rs[i];
        rs[i].color := originalColors[i];
        i := i + 1;
      }
    }
  }
}
