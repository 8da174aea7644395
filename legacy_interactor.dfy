/**
 * The older interactor, `Objects/Interactor.cs`. It differs from the one in
 * `Objects/Interaction/` in three ways: it keeps a single `Hovered` field that
 * its own ray cast never assigns; engaging a hovered engageable replaces the
 * call to its `Interact`; and its ray cast calls `Unfocus` and `Focus`
 * without checking for null.
 *
 * A call on a null reference throws; the engine abandons the rest of that
 * frame's `Update`, so the state is what it was at the throw, and the calls
 * made before it stay made.
 */
module LegacyInteraction {
  import opened Engine
  import Interaction

  type Focusable = Interaction.Focusable

  /**
   * An `IInteractable` component; `engageable` and `shiftable` say whether
   * it also implements `IEngageable` and `IShiftable`.
   */
  datatype Target = Target(id: nat, engageable: bool, shiftable: bool)

  /** What `GetComponentInParent` finds on the collider a ray cast hit. */
  datatype Hit = Hit(interactable: Option<Target>, focusable: Option<Focusable>)

  datatype Call =
    | Focus(f: Focusable)
    | Unfocus(f: Focusable)
    | Engage(t: Target)
    | Disengage(t: Target)
    | Interact(t: Target)
    | Shift(t: Target, direction: int)

  datatype LegacyState = LegacyState(engaged: Option<Target>, hovered: Option<Target>, focused: Option<Focusable>)

  datatype Step = Step(next: LegacyState, calls: seq<Call>)

  function HitFocusable(hit: Option<Hit>): Option<Focusable> {
    if hit.Some? then hit.value.focusable else None
  }

  /** Whether the ray cast of one frame dereferences a null focus reference. */
  predicate CastThrows(s: LegacyState, hit: Option<Hit>) {
    HitFocusable(hit) != s.focused && (s.focused.None? || HitFocusable(hit).None?)
  }

  /**
   * One frame of `Cast` as written, including a frame it abandons: from no
   * focus, the `Unfocus` on null throws before any call; from a focus to a
   * miss, `Unfocus` is made and the `Focus` on null throws. `Hovered` is
   * never written.
   */
  function LegacyCastFrame(s: LegacyState, hit: Option<Hit>): (r: Step)
    ensures r.next.hovered == s.hovered && r.next.engaged == s.engaged
    ensures CastThrows(s, hit) ==> r.next == s
    ensures HitFocusable(hit) == s.focused ==> r == Step(s, [])
    ensures !CastThrows(s, hit) && HitFocusable(hit) != s.focused ==>
      r == Step(s.(focused := HitFocusable(hit)), [Unfocus(s.focused.value), Focus(HitFocusable(hit).value)])
  {
    var newFocused := HitFocusable(hit);
    if newFocused == s.focused then Step(s, [])
    else if s.focused.None? then Step(s, [])
    else if newFocused.None? then Step(s, [Unfocus(s.focused.value)])
    else Step(s.(focused := newFocused), [Unfocus(s.focused.value), Focus(newFocused.value)])
  }

  /** A run of frames of the as-written cast, with all the calls made. */
  function LegacyCastAll(s: LegacyState, hits: seq<Option<Hit>>): Step
    decreases |hits|
  {
    if hits == [] then Step(s, [])
    else
      var first := LegacyCastFrame(s, hits[0]);
      var rest := LegacyCastAll(first.next, hits[1..]);
      Step(rest.next, first.calls + rest.calls)
  }

  /** The smallest case: the first frame whose ray finds a focusable throws, and nothing is focused. */
  lemma FirstFocusThrows(s: LegacyState, f: Focusable)
    requires s.focused.None?
    ensures CastThrows(s, Some(Hit(None, Some(f))))
    ensures LegacyCastFrame(s, Some(Hit(None, Some(f)))) == Step(s, [])
  {
  }

  /**
   * Starting from the initial, unfocused state, the as-written cast never
   * focuses anything and never makes a single focus call, whatever the rays hit.
   */
  lemma {:induction false} LegacyNeverFocuses(s: LegacyState, hits: seq<Option<Hit>>)
    requires s.focused.None?
    ensures LegacyCastAll(s, hits) == Step(s, [])
    decreases |hits|
  {
    if hits != [] {
      LegacyNeverFocuses(LegacyCastFrame(s, hits[0]).next, hits[1..]);
    }
  }

  /**
   * The cast as evidently intended: each side of the focus change is called
   * only when non-null, as the newer interactor does.
   */
  function CastNullSafe(s: LegacyState, hit: Option<Hit>): (r: Step)
    ensures r.next == s.(focused := HitFocusable(hit))
    ensures HitFocusable(hit) == s.focused ==> r.calls == []
    ensures HitFocusable(hit) != s.focused ==>
      r.calls == (if s.focused.Some? then [Unfocus(s.focused.value)] else [])
               + (if HitFocusable(hit).Some? then [Focus(HitFocusable(hit).value)] else [])
  {
    var newFocused := HitFocusable(hit);
    if newFocused == s.focused then Step(s, [])
    else
      Step(s.(focused := newFocused),
           (if s.focused.Some? then [Unfocus(s.focused.value)] else [])
           + (if newFocused.Some? then [Focus(newFocused.value)] else []))
  }

  /** Where the as-written cast does not throw, the null-safe cast agrees with it. */
  lemma CastNullSafeAgrees(s: LegacyState, hit: Option<Hit>)
    requires !CastThrows(s, hit)
    ensures CastNullSafe(s, hit) == LegacyCastFrame(s, hit)
  {
  }

  /** The null-safe cast does focus what the ray finds, from the initial state too. */
  lemma CastNullSafeFocuses(s: LegacyState, f: Focusable)
    requires s.focused.None?
    ensures CastNullSafe(s, Some(Hit(None, Some(f)))) == Step(s.(focused := Some(f)), [Focus(f)])
  {
  }

  /**
   * `Interact`: while engaged, disengage and stop; otherwise a hovered
   * engageable is engaged instead of being interacted with, and any other
   * hovered target is interacted with.
   */
  function LegacyInteractStep(s: LegacyState): (r: Step)
    ensures s.engaged.Some? ==> r == Step(s.(engaged := None), [Disengage(s.engaged.value)])
    ensures s.engaged.None? && s.hovered.Some? && s.hovered.value.engageable ==>
      r == Step(s.(engaged := s.hovered), [Engage(s.hovered.value)])
    ensures s.engaged.None? && s.hovered.Some? && !s.hovered.value.engageable ==>
      r == Step(s, [Interact(s.hovered.value)])
    ensures s.engaged.None? && s.hovered.None? ==> r == Step(s, [])
    ensures forall t :: Interact(t) in r.calls ==> !t.engageable
  {
    if s.engaged.Some? then Step(s.(engaged := None), [Disengage(s.engaged.value)])
    else if s.hovered.Some? && s.hovered.value.engageable then Step(s.(engaged := s.hovered), [Engage(s.hovered.value)])
    else if s.hovered.Some? then Step(s, [Interact(s.hovered.value)])
    else Step(s, [])
  }

  /** Interacting twice with a hovered engageable engages it, disengages it, and returns to the start. */
  lemma LegacyEngageThenDisengage(s: LegacyState, t: Target)
    requires s.engaged.None? && s.hovered == Some(t) && t.engageable
    ensures LegacyInteractStep(LegacyInteractStep(s).next).next == s
    ensures LegacyInteractStep(s).calls + LegacyInteractStep(LegacyInteractStep(s).next).calls == [Engage(t), Disengage(t)]
  {
  }

  class LegacyInteractor {
    var Engaged: Option<Target>
    /** Public and read by `Interact`; nothing in this class assigns it. */
    var Hovered: Option<Target>
    var Focused: Option<Focusable>
    ghost var calls: seq<Call>

    function State(): LegacyState
      reads this
    {
      LegacyState(Engaged, Hovered, Focused)
    }

    /** `Engaged` only ever holds an `IEngageable`. */
    ghost predicate Valid()
      reads this
    {
      Engaged.Some? ==> Engaged.value.engageable
    }

    constructor ()
      ensures State() == LegacyState(None, None, None) && calls == [] && Valid()
    {
      Engaged, Hovered, Focused := None, None, None;
      calls := [];
    }

    method Update(hit: Option<Hit>)
      requires !CastThrows(State(), hit)
      modifies this
      ensures State() == LegacyCastFrame(old(State()), hit).next
      ensures calls == old(calls) + LegacyCastFrame(old(State()), hit).calls
    {
      Cast(hit);
    }

    /** The ray cast as written; a frame in which it would dereference null is excluded by the precondition. */
    method Cast(hit: Option<Hit>)
      requires !CastThrows(State(), hit)
      modifies this
      ensures State() == LegacyCastFrame(old(State()), hit).next
      ensures calls == old(calls) + LegacyCastFrame(old(State()), hit).calls
    {
      var newHovered: Option<Target> := None;
      var newFocused: Option<Focusable> := None;
      if hit.Some? {
        newHovered := hit.value.interactable;
        newFocused := hit.value.focusable;
      }
      if newFocused != Focused {
        calls := calls + [Unfocus(Focused.value)];
        calls := calls + [Focus(newFocused.value)];
        Focused := newFocused;
      }
    }

    method Interact()
      requires Valid()
      modifies this
      ensures Valid()
      ensures State() == LegacyInteractStep(old(State())).next
      ensures calls == old(calls) + LegacyInteractStep(old(State())).calls
    {
      if Engaged.Some? {
        calls := calls + [Disengage(Engaged.value)];
        Engaged := None;
        return;
      }
      if Hovered.Some? && Hovered.value.engageable {
        calls := calls + [Engage(Hovered.value)];
        Engaged := Hovered;
      } else if Hovered.Some? {
        calls := calls + [Call.Interact(Hovered.value)];
      }
    }

    method Scroll(direction: int)
      modifies this
      ensures State() == old(State())
      ensures Engaged.Some? && Engaged.value.shiftable ==> calls == old(calls) + [Shift(Engaged.value, direction)]
      ensures !(Engaged.Some? && Engaged.value.shiftable) ==> calls == old(calls)
    {
      if Engaged.Some? && Engaged.value.shiftable {
        calls := calls + [Shift(Engaged.value, direction)];
      }
    }
  }
}
