/**
 * A focusable object that passes focus changes on to the focus effects on
 * the same game object (`SimpleFocusable`). The effects are known through
 * their interface only, so the calls made on them are recorded in order.
 */
module FocusBroadcast {
  import opened Engine

  /** An `IFocusEffect` component. */
  datatype EffectRef = EffectRef(id: nat)

  datatype EffectCall = OnFocus(e: EffectRef) | OnUnfocus(e: EffectRef)

  class SimpleFocusable {
    /** `GetComponents<IFocusEffect>()`, captured once at `Start`. */
    var focusEffects: seq<EffectRef>
    ghost var effectCalls: seq<EffectCall>

    /** `Start`: `effects` is what the lookup returns. */
    constructor Start(effects: seq<EffectRef>)
      ensures focusEffects == effects && effectCalls == []
    {
      focusEffects := effects;
      effectCalls := [];
    }

    /** Each effect, in order, gets exactly one `OnFocus`; the interactor plays no part. */
    method Focus(interactor: GameObject)
      modifies this`effectCalls
      ensures effectCalls == old(effectCalls) + MapSeq(focusEffects, e => OnFocus(e))
    {
      var i := 0;
      while i < |focusEffects|
        invariant 0 <= i <= |focusEffects|
        invariant effectCalls == old(effectCalls) + MapSeq(focusEffects[..i], e => OnFocus(e))
      {
        assert focusEffects[..i + 1][..i] == focusEffects[..i];
        effectCalls := effectCalls + [OnFocus(focusEffects[i])];
        i := i + 1;
      }
      assert focusEffects[..i] == focusEffects;
    }

    /** Each effect, in order, gets exactly one `OnUnfocus`; the interactor plays no part. */
    method Unfocus(interactor: GameObject)
      modifies this`effectCalls
      ensures effectCalls == old(effectCalls) + MapSeq(focusEffects, e => OnUnfocus(e))
    {
      var i := 0;
      while i < |focusEffects|
        invariant 0 <= i <= |focusEffects|
        invariant effectCalls == old(effectCalls) + MapSeq(focusEffects[..i], e => OnUnfocus(e))
      {
        assert focusEffects[..i + 1][..i] == focusEffects[..i];
        effectCalls := effectCalls + [OnUnfocus(focusEffects[i])];
        i := i + 1;
      }
      assert focusEffects[..i] == focusEffects;
    }
  }
}
