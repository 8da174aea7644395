/**
 * Stand-ins for the engine objects the game's components write to.
 *
 * Each class keeps only the flags and values the components read or assign
 * (a collider's `enabled`, a rigidbody's `isKinematic`, a renderer's layer
 * mask, ...). The engine's response to those writes (physics, rendering,
 * transform hierarchy bookkeeping) is not modelled.
 */
module Engine {
  import opened Vectors

  datatype Option<T> = None | Some(value: T)

  /** An RGBA colour. */
  datatype Color = Color(r: real, g: real, b: real, a: real)

  /** A transform; its fields are independent abstract values here. */
  class Transform {
    var parent: Transform?
    var position: Vec
    var localPosition: Vec
    var localRotation: Quat
    var forward: Vec
    var up: Vec

    constructor ()
    {
    }
  }

  /** A game object; `active` is what `SetActive` writes. */
  class GameObject {
    var active: bool
    const transform: Transform
    /** What `GetComponentsInChildren<Renderer>(true)` returns for this object. */
    const childRenderers: seq<Renderer>

    constructor (transform: Transform, childRenderers: seq<Renderer>)
      ensures this.transform == transform && this.childRenderers == childRenderers
    {
      this.transform := transform;
      this.childRenderers := childRenderers;
    }
  }

  class Collider {
    const isTrigger: bool
    var enabled: bool

    constructor (isTrigger: bool)
      ensures this.isTrigger == isTrigger
    {
      this.isTrigger := isTrigger;
    }
  }

  /** A rigidbody. `accelerations` lists the forces added with `ForceMode.Acceleration`, oldest first. */
  class Rigidbody {
    var useGravity: bool
    var isKinematic: bool
    var accelerations: seq<Vec>

    constructor ()
    {
    }
  }

  /** A camera component. */
  class Camera {
    var enabled: bool
    const transform: Transform

    constructor (transform: Transform)
      ensures this.transform == transform
    {
      this.transform := transform;
    }
  }

  /** A script component that can be switched on and off (`CameraFollow`, `PlayerController`). */
  class Behaviour {
    var enabled: bool

    constructor ()
    {
    }
  }

  class Light {
    var enabled: bool
    var color: Color

    constructor ()
    {
    }
  }

  /** A renderer: its `enabled` flag, `renderingLayerMask` and its material's colour. */
  class Renderer {
    var enabled: bool
    var renderingLayerMask: bv32
    var color: Color

    constructor ()
    {
    }
  }

  /** `f` applied to each element of `xs`, in order. */
  function MapSeq<T, U>(xs: seq<T>, f: T -> U): (r: seq<U>)
    ensures |r| == |xs|
    ensures forall i :: 0 <= i < |xs| ==> r[i] == f(xs[i])
    decreases |xs|
  {
    if xs == [] then [] else MapSeq(xs[..|xs| - 1], f) + [f(xs[|xs| - 1])]
  }

  /** No object occurs twice (what `GetComponentsInChildren` guarantees). */
  predicate Distinct<T(==)>(s: seq<T>) {
    forall i, j :: 0 <= i < j < |s| ==> s[i] != s[j]
  }
}
