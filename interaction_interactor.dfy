/**
 * The interactor the player uses (`Objects/Interaction/Interactor.cs`): a ray
 * cast each frame decides what is hovered and focused; `Interact` engages or
 * disengages and also interacts with what is hovered; `Scroll` forwards to
 * the engaged object when it can shift.
 *
 * The objects it talks to are known only through the interfaces they
 * implement, so they appear as references (`Interactable`, `Engageable`,
 * `Focusable`), and every call the interactor makes on them is recorded in
 * order as a `Call`.
 */
module Interaction {
  import opened Engine

  datatype Interactable = Interactable(id: nat)
  /** An engageable component; `shiftable` says whether it also implements `IShiftable`. */
  datatype Engageable = Engageable(id: nat, shiftable: bool)
  datatype Focusable = Focusable(id: nat)

  /** What `GetComponentInParent` finds for each interface on the collider a ray cast hit. */
  datatype Hit = Hit(interactable: Option<Interactable>, engageable: Option<Engageable>, focusable: Option<Focusable>)

  /** A call the interactor makes on another component. */
  datatype Call =
    | Focus(f: Focusable)
    | Unfocus(f: Focusable)
    | Engage(e: Engageable)
    | Disengage(e: Engageable)
    | Interact(i: Interactable)
    | Shift(e: Engageable, direction: int)

  datatype InteractorState = InteractorState(
    engaged: Option<Engageable>,
    hoveredInteractable: Option<Interactable>,
    hoveredEngagable: Option<Engageable>,
    focused: Option<Focusable>)

  /** The state after an operation and the calls it made, in order. */
  datatype Step = Step(next: InteractorState, calls: seq<Call>)

  function CallsIfSome<T>(o: Option<T>, call: T -> Call): (cs: seq<Call>)
    ensures o.None? ==> cs == []
    ensures o.Some? ==> cs == [call(o.value)]
  {
    if o.Some? then [call(o.value)] else []
  }

  /** What a ray cast with result `hit` (`None` for a miss) finds, per interface. */
  function HitInteractable(hit: Option<Hit>): Option<Interactable> {
    if hit.Some? then hit.value.interactable else None
  }
  function HitEngageable(hit: Option<Hit>): Option<Engageable> {
    if hit.Some? then hit.value.engageable else None
  }
  function HitFocusable(hit: Option<Hit>): Option<Focusable> {
    if hit.Some? then hit.value.focusable else None
  }

  /**
   * `Cast`: both hover fields and the focus follow the ray; focus calls are
   * made only when the focused component changes, unfocusing the old one
   * first and skipping whichever side is null.
   */
  function CastStep(s: InteractorState, hit: Option<Hit>): (r: Step)
    ensures r.next.hoveredInteractable == HitInteractable(hit)
    ensures r.next.hoveredEngagable == HitEngageable(hit)
    ensures r.next.focused == HitFocusable(hit)
    ensures r.next.engaged == s.engaged
    ensures HitFocusable(hit) == s.focused ==> r.calls == []
    ensures HitFocusable(hit) != s.focused ==>
      r.calls == CallsIfSome(s.focused, f => Unfocus(f)) + CallsIfSome(HitFocusable(hit), f => Focus(f))
    ensures hit.None? ==> r.next.hoveredInteractable.None? && r.next.hoveredEngagable.None? && r.next.focused.None?
  {
    var newFocused := HitFocusable(hit);
    var focusCalls :=
      if newFocused != s.focused
      then CallsIfSome(s.focused, f => Unfocus(f)) + CallsIfSome(newFocused, f => Focus(f))
      else [];
    Step(InteractorState(s.engaged, HitInteractable(hit), HitEngageable(hit), newFocused), focusCalls)
  }

  /**
   * `Interact`: while engaged, disengage and do nothing else; otherwise
   * engage the hovered engageable, if any, and then interact with the
   * hovered interactable, if any.
   */
  function InteractStep(s: InteractorState): (r: Step)
    ensures s.engaged.Some? ==> r == Step(s.(engaged := None), [Disengage(s.engaged.value)])
    ensures s.engaged.None? ==> r.next == s.(engaged := s.hoveredEngagable)
    ensures s.engaged.None? ==>
      r.calls == CallsIfSome(s.hoveredEngagable, e => Engage(e)) + CallsIfSome(s.hoveredInteractable, i => Interact(i))
  {
    if s.engaged.Some? then
      Step(s.(engaged := None), [Disengage(s.engaged.value)])
    else
      var engageCalls := CallsIfSome(s.hoveredEngagable, e => Engage(e));
      var engaged := if s.hoveredEngagable.Some? then s.hoveredEngagable else s.engaged;
      Step(s.(engaged := engaged), engageCalls + CallsIfSome(s.hoveredInteractable, i => Interact(i)))
  }

  /** `Scroll`: forwarded to the engaged component only when it is shiftable. */
  function ScrollStep(s: InteractorState, direction: int): (r: Step)
    ensures r.next == s
    ensures r.calls != [] <==> s.engaged.Some? && s.engaged.value.shiftable
    ensures r.calls != [] ==> r.calls == [Shift(s.engaged.value, direction)]
  {
    if s.engaged.Some? && s.engaged.value.shiftable then Step(s, [Shift(s.engaged.value, direction)]) else Step(s, [])
  }

  /**
   * Two `Interact`s in a row on a hovered engageable engage it, then disengage
   * it, and return to the starting state; the hovered interactable is
   * interacted with only by the first.
   */
  lemma EngageThenDisengage(s: InteractorState, e: Engageable)
    requires s.engaged.None? && s.hoveredEngagable == Some(e)
    ensures var first := InteractStep(s);
      var second := InteractStep(first.next);
      && first.next.engaged == Some(e)
      && second.next == s
      && first.calls + second.calls == [Engage(e)] + CallsIfSome(s.hoveredInteractable, i => Interact(i)) + [Disengage(e)]
  {
  }

  /** Casting twice with the same ray result makes no focus calls the second time. */
  lemma CastIsStable(s: InteractorState, hit: Option<Hit>)
    ensures CastStep(CastStep(s, hit).next, hit).next == CastStep(s, hit).next
    ensures CastStep(CastStep(s, hit).next, hit).calls == []
  {
  }

  /** One `Cast` per frame for the ray results `hits`, with all the calls made, in order. */
  function CastAll(s: InteractorState, hits: seq<Option<Hit>>): (r: Step)
    decreases |hits|
  {
    if hits == [] then Step(s, [])
    else
      var first := CastStep(s, hits[0]);
      var rest := CastAll(first.next, hits[1..]);
      Step(rest.next, first.calls + rest.calls)
  }

  /** The focused component implied by a history of focus calls, starting from `start`. */
  function FocusedAfter(start: Option<Focusable>, calls: seq<Call>): Option<Focusable>
    decreases |calls|
  {
    if calls == [] then start
    else
      var c := calls[|calls| - 1];
      var before := FocusedAfter(start, calls[..|calls| - 1]);
      match c
      case Focus(f) => Some(f)
      case Unfocus(f) => if before == Some(f) then None else before
      case _ => before
  }

  lemma {:induction false} FocusedAfterAppend(start: Option<Focusable>, a: seq<Call>, b: seq<Call>)
    ensures FocusedAfter(start, a + b) == FocusedAfter(FocusedAfter(start, a), b)
    decreases |b|
  {
    if b == [] {
      assert a + b == a;
    } else {
      assert (a + b)[..|a + b| - 1] == a + b[..|b| - 1];
      FocusedAfterAppend(start, a, b[..|b| - 1]);
    }
  }

  /**
   * The focus calls `Cast` makes are consistent with its focus field: replaying
   * them from the first focus yields the final focus.
   */
  lemma {:induction false} FocusCallsTrackFocus(s: InteractorState, hits: seq<Option<Hit>>)
    ensures FocusedAfter(s.focused, CastAll(s, hits).calls) == CastAll(s, hits).next.focused
    decreases |hits|
  {
    if hits != [] {
      var first := CastStep(s, hits[0]);
      FocusCallsTrackFocus(first.next, hits[1..]);
      FocusedAfterAppend(s.focused, first.calls, CastAll(first.next, hits[1..]).calls);
      assert FocusedAfter(s.focused, first.calls) == first.next.focused by {
        var nf := HitFocusable(hits[0]);
        if nf != s.focused {
          var u := CallsIfSome(s.focused, f => Unfocus(f));
          FocusedAfterAppend(s.focused, u, CallsIfSome(nf, f => Focus(f)));
          assert FocusedAfter(s.focused, u) == None by {
            if s.focused.Some? {
              assert u[..0] == [];
            }
          }
          if nf.Some? {
            assert CallsIfSome(nf, f => Focus(f))[..0] == [];
          }
        }
      }
    }
  }

  class Interactor {
    var Engaged: Option<Engageable>
    var HoveredInteractable: Option<Interactable>
    var HoveredEngagable: Option<Engageable>
    var Focused: Option<Focusable>
    /** The calls made on other components so far, oldest first. */
    ghost var calls: seq<Call>

    function State(): InteractorState
      reads this
    {
      InteractorState(Engaged, HoveredInteractable, HoveredEngagable, Focused)
    }

    constructor ()
      ensures State() == InteractorState(None, None, None, None) && calls == []
    {
      Engaged, HoveredInteractable, HoveredEngagable, Focused := None, None, None, None;
      calls := [];
    }

    /** One frame: cast the ray (`hit` is its result, `None` for a miss). */
    method Update(hit: Option<Hit>)
      modifies this
      ensures State() == CastStep(old(State()), hit).next
      ensures calls == old(calls) + CastStep(old(State()), hit).calls
    {
      Cast(hit);
    }

    method Cast(hit: Option<Hit>)
      modifies this
      ensures State() == CastStep(old(State()), hit).next
      ensures calls == old(calls) + CastStep(old(State()), hit).calls
    {
      var newHoveredInteractable: Option<Interactable> := None;
      var newHoveredEngagable: Option<Engageable> := None;
      var newFocused: Option<Focusable> := None;
      if hit.Some? {
        newHoveredInteractable := hit.value.interactable;
        newHoveredEngagable := hit.value.engageable;
        newFocused := hit.value.focusable;
      }
      if newFocused != Focused {
        if Focused.Some? {
          calls := calls + [Unfocus(Focused.value)];
        }
        if newFocused.Some? {
          calls := calls + [Focus(newFocused.value)];
        }
        Focused := newFocused;
      }
      HoveredInteractable := newHoveredInteractable;
      HoveredEngagable := newHoveredEngagable;
    }

    method Interact()
      modifies this
      ensures State() == InteractStep(old(State())).next
      ensures calls == old(calls) + InteractStep(old(State())).calls
    {
      if Engaged.Some? {
        calls := calls + [Disengage(Engaged.value)];
        Engaged := None;
        return;
      }
      if HoveredEngagable.Some? {
        calls := calls + [Engage(HoveredEngagable.value)];
        Engaged := HoveredEngagable;
      }
      if HoveredInteractable.Some? {
        calls := calls + [Call.Interact(HoveredInteractable.value)];
      }
    }

    method Scroll(direction: int)
      modifies this
      ensures State() == old(State())
      ensures calls == old(calls) + ScrollStep(old(State()), direction).calls
    {
      if Engaged.Some? && Engaged.value.shiftable {
        calls := calls + [Shift(Engaged.value, direction)];
      }
    }
  }
}
