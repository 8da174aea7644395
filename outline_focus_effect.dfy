/**
 * The outline focus effect (`OutlineFocusEffect`): on focus each renderer's
 * rendering layer mask is remembered and the outline layers are ORed in; on
 * unfocus the remembered mask is put back.
 */
module OutlineFocus {
  import opened Engine

  /** A mask with the outline layers added. */
  function Outlined(mask: bv32, outline: bv32): (r: bv32)
    ensures r & outline == outline
    ensures r & mask == mask
  {
    mask | outline
  }

  /** Adding the outline twice is adding it once. */
  lemma OutlinedIdempotent(mask: bv32, outline: bv32)
    ensures Outlined(Outlined(mask, outline), outline) == Outlined(mask, outline)
  {
  }

  /** One renderer's mask and the value recorded for it, if any. */
  datatype MaskState = MaskState(mask: bv32, recorded: Option<bv32>)

  function Focus(s: MaskState, outline: bv32): (r: MaskState)
    ensures r.recorded == Some(s.mask)
  {
    MaskState(Outlined(s.mask, outline), Some(s.mask))
  }

  function Unfocus(s: MaskState): MaskState
    requires s.recorded.Some?
  {
    s.(mask := s.recorded.value)
  }

  /** Focus then unfocus gives the renderer back its mask from before the focus. */
  lemma FocusUnfocusRestores(s: MaskState, outline: bv32)
    ensures Unfocus(Focus(s, outline)).mask == s.mask
  {
  }

  /** An outlined mask equals the original only when the original already had the outline. */
  lemma OutlinedChangesMask(mask: bv32, outline: bv32)
    ensures Outlined(mask, outline) == mask <==> mask & outline == outline
  {
    if mask & outline == outline {
      OrAbsorbs(mask, outline);
    }
  }

  lemma OrAbsorbs(mask: bv32, outline: bv32)
    requires mask & outline == outline
    ensures mask | outline == mask
  {
  }

  /**
   * Focusing twice before unfocusing records the already outlined mask, so
   * the unfocus leaves the outline on; unless the outline was there from the
   * start, the mask is not restored.
   */
  lemma RefocusKeepsOutline(s: MaskState, outline: bv32)
    ensures Unfocus(Focus(Focus(s, outline), outline)).mask == Outlined(s.mask, outline)
    ensures s.mask & outline != outline ==> Unfocus(Focus(Focus(s, outline), outline)).mask != s.mask
  {
    OutlinedChangesMask(s.mask, outline);
  }

  class OutlineFocusEffect {
    /** The game object the component sits on. */
    const gameObject: GameObject
    var baseObject: GameObject?
    const outlineLayerMask: bv32
    /** `None` until `Start` has run. */
    var renderers: Option<seq<Renderer>>
    var originalRenderingLayerMask: map<Renderer, bv32>

    ghost predicate Valid()
      reads this
    {
      renderers.Some? ==> Distinct(renderers.value)
    }

    function RendererSet(): set<Renderer>
      reads this
    {
      if renderers.Some? then set r | r in renderers.value else {}
    }

    /** The field initialisers; `baseObject` is the configured one, possibly unset. */
    constructor (gameObject: GameObject, baseObject: GameObject?, outlineLayerMask: bv32)
      ensures this.gameObject == gameObject && this.baseObject == baseObject && this.outlineLayerMask == outlineLayerMask
      ensures renderers.None? && originalRenderingLayerMask == map[]
      ensures Valid()
    {
      this.gameObject := gameObject;
      this.baseObject := baseObject;
      this.outlineLayerMask := outlineLayerMask;
      renderers := None;
      originalRenderingLayerMask := map[];
    }

    /** An unset base object defaults to the component's own game object; its renderers are looked up. */
    method Start()
      requires Distinct((if baseObject == null then gameObject else baseObject).childRenderers)
      modifies this
      ensures baseObject == (if old(baseObject) == null then gameObject else old(baseObject))
      ensures renderers == Some(baseObject.childRenderers)
      ensures originalRenderingLayerMask == old(originalRenderingLayerMask)
      ensures Valid()
    {
      if baseObject == null {
        baseObject := gameObject;
      }
      renderers := Some(baseObject.childRenderers);
    }

    /**
     * Records each renderer's current mask, then adds the outline to it.
     * Records for other renderers are kept. Before `Start`, nothing happens.
     */
    method OnFocus()
      requires Valid()
      modifies this`originalRenderingLayerMask, RendererSet()
      ensures renderers.None? ==> unchanged(this)
      ensures renderers.Some? ==> forall j :: 0 <= j < |renderers.value| ==>
        && renderers.value[j].renderingLayerMask == Outlined(old(renderers.value[j].renderingLayerMask), outlineLayerMask)
        && renderers.value[j] in originalRenderingLayerMask
        && originalRenderingLayerMask[renderers.value[j]] == old(renderers.value[j].renderingLayerMask)
      ensures forall r :: r in RendererSet() ==> r.enabled == old(r.enabled) && r.color == old(r.color)
      ensures forall r :: r !in RendererSet() ==>
        && (r in originalRenderingLayerMask <==> r in old(originalRenderingLayerMask))
        && (r in originalRenderingLayerMask ==> originalRenderingLayerMask[r] == old(originalRenderingLayerMask[r]))
    {
      if renderers.None? {
        return;
      }
      var rs := renderers.value;
      var i := 0;
      while i < |rs|
        invariant 0 <= i <= |rs|
        invariant forall j :: 0 <= j < i ==>
          && rs[j].renderingLayerMask == Outlined(old(rs[j].renderingLayerMask), outlineLayerMask)
          && rs[j] in originalRenderingLayerMask && originalRenderingLayerMask[rs[j]] == old(rs[j].renderingLayerMask)
        invariant forall j :: i <= j < |rs| ==> rs[j].renderingLayerMask == old(rs[j].renderingLayerMask)
        invariant forall r :: r in rs ==> r.enabled == old(r.enabled) && r.color == old(r.color)
        invariant forall r :: r !in rs ==>
          && (r in originalRenderingLayerMask <==> r in old(originalRenderingLayerMask))
          && (r in originalRenderingLayerMask ==> originalRenderingLayerMask[r] == old(originalRenderingLayerMask[r]))
      {
        assert forall j :: 0 <= j < |rs| && j != i ==> rs[j] != rs[i];
        RecordAndOutline(rs[i]);
        i := i + 1;
      }
    }

    /** The mask state of `renderer`: its mask and what is recorded for it. */
    function MaskOf(renderer: Renderer): MaskState
      reads this, renderer
    {
      MaskState(renderer.renderingLayerMask,
        if renderer in originalRenderingLayerMask then Some(originalRenderingLayerMask[renderer]) else None)
    }

    /** The body of the `OnFocus` loop for one renderer: the `Focus` step on its mask state. */
    method RecordAndOutline(renderer: Renderer)
      modifies this`originalRenderingLayerMask, renderer
      ensures MaskOf(renderer) == Focus(old(MaskOf(renderer)), outlineLayerMask)
      ensures originalRenderingLayerMask == old(originalRenderingLayerMask)[renderer := old(renderer.renderingLayerMask)]
      ensures renderer.renderingLayerMask == Outlined(old(renderer.renderingLayerMask), outlineLayerMask)
      ensures renderer.enabled == old(renderer.enabled) && renderer.color == old(renderer.color)
    {
      originalRenderingLayerMask := originalRenderingLayerMask[renderer := renderer.renderingLayerMask];
      renderer.renderingLayerMask := Outlined(renderer.renderingLayerMask, outlineLayerMask);
    }

    /** Puts each renderer's recorded mask back. Before `Start`, nothing happens. */
    method OnUnfocus()
      requires Valid()
      requires forall r :: r in RendererSet() ==> r in originalRenderingLayerMask
      modifies RendererSet()
      ensures forall r :: r in RendererSet() ==>
        r.renderingLayerMask == originalRenderingLayerMask[r] && r.enabled == old(r.enabled) && r.color == old(r.color)
      ensures forall r :: r in RendererSet() ==> MaskOf(r) == Unfocus(old(MaskOf(r)))
    {
      if renderers.None? {
        return;
      }
      var rs := renderers.value;
      var i := 0;
      while i < |rs|
        invariant 0 <= i <= |rs|
        invariant forall j :: 0 <= j < i ==> rs[j].renderingLayerMask == originalRenderingLayerMask[rs[j]]
        invariant forall r :: r in rs ==> r.enabled == old(r.enabled) && r.color == old(r.color)
      {
        rs[i].renderingLayerMask := originalRenderingLayerMask[rs[i]];
        i := i + 1;
      }
    }
  }
}
