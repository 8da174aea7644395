/**
 * An object with several alternative states of which one is shown
 * (`ShiftableObject`). Each state is a root game object; the component keeps
 * the index of the shown one. Its `Shift` computes a next index but does not
 * use it yet.
 */
module Shiftable {
  import opened Engine

  /** A state of a shiftable object. Only its root object is used here; the rest of `ShiftState` is not part of this model. */
  class ShiftState {
    const StateRoot: GameObject

    constructor (root: GameObject)
      ensures StateRoot == root
    {
      StateRoot := root;
    }
  }

  /** C#'s `/` on `int` by a positive divisor: the quotient truncated toward zero. */
  function TruncDiv(a: int, n: int): int
    requires n > 0
  {
    if a >= 0 then a / n else -((-a) / n)
  }

  /**
   * C#'s `%` on `int` by a positive divisor: the remainder of the truncated
   * division, which takes the sign of the dividend and is smaller than the
   * divisor in magnitude.
   */
  function TruncRem(a: int, n: int): (r: int)
    requires n > 0
    ensures a >= 0 ==> 0 <= r < n
    ensures a < 0 ==> -n < r <= 0
    ensures a == TruncDiv(a, n) * n + r
  {
    if a >= 0 then a % n
    else
      var q := (-a) / n;
      assert -a == q * n + (-a) % n;
      assert -(q * n) == (-q) * n;
      -((-a) % n)
  }

  /** Shifting back from the first state gives -1, not the last index: the value is not yet an index. */
  lemma ShiftBackFromFirst(count: int)
    requires count > 1
    ensures TruncRem(0 + -1, count) == -1
    ensures TruncDiv(0 + -1, count) == 0
  {
  }

  class ShiftableObject {
    const states: array<ShiftState>
    var stateIndex: int
    var engaged: bool

    /** Every state's root object. */
    function Roots(): set<GameObject>
      reads this, states
    {
      set i | 0 <= i < states.Length :: states[i].StateRoot
    }

    /**
     * Exactly the roots that are the current state's root are shown; a root
     * shared by several states counts as the current one.
     */
    ghost predicate OnlyCurrentShown()
      reads this, states, Roots()
    {
      && 0 <= stateIndex < states.Length
      && forall i :: 0 <= i < states.Length ==>
           (states[i].StateRoot.active <==> states[i].StateRoot == states[stateIndex].StateRoot)
    }

    /** The field initialisers. */
    constructor (states: array<ShiftState>)
      ensures this.states == states && stateIndex == 0 && !engaged
    {
      this.states := states;
      stateIndex := 0;
      engaged := false;
    }

    /** Computes the next index and discards it: nothing changes. Divides by zero without states. */
    method Shift(direction: int)
      requires states.Length != 0
    {
      var newIndex := TruncRem(stateIndex + direction, states.Length);
    }

    method DisableStates()
      modifies Roots()
      ensures forall i :: 0 <= i < states.Length ==> !states[i].StateRoot.active
    {
      var k := 0;
      while k < states.Length
        invariant 0 <= k <= states.Length
        invariant forall i :: 0 <= i < k ==> !states[i].StateRoot.active
      {
        states[k].StateRoot.active := false;
        k := k + 1;
      }
    }

    /** Hides the current state's root, shows root `index`, and makes `index` current. */
    method ChangeState(index: int)
      requires 0 <= stateIndex < states.Length && 0 <= index < states.Length
      modifies this`stateIndex, Roots()
      ensures stateIndex == index
      ensures states[index].StateRoot.active
      ensures old(states[stateIndex].StateRoot) != states[index].StateRoot ==> !old(states[stateIndex].StateRoot).active
      ensures forall g :: g in Roots() && g != old(states[stateIndex].StateRoot) && g != states[index].StateRoot ==> g.active == old(g.active)
      ensures old(OnlyCurrentShown()) ==> OnlyCurrentShown()
    {
      states[stateIndex].StateRoot.active := false;
      states[index].StateRoot.active := true;
      stateIndex := index;
    }

    /**
     * Shows state 0 and only it. Without states, `ChangeState(0)` throws on
     * its first index after hiding nothing, so nothing changes.
     */
    method Start()
      requires states.Length != 0 ==> 0 <= stateIndex < states.Length
      modifies this`stateIndex, Roots()
      ensures states.Length != 0 ==> stateIndex == 0 && OnlyCurrentShown()
      ensures states.Length == 0 ==> stateIndex == old(stateIndex)
    {
      DisableStates();
      if states.Length == 0 {
        return;
      }
      ChangeState(0);
    }

    method Engage(interactor: GameObject)
      modifies this`engaged
      ensures engaged
    {
      engaged := true;
    }

    method Disengage(interactor: GameObject)
      modifies this`engaged
      ensures !engaged
    {
      engaged := false;
    }
  }
}
