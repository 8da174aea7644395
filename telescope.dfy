/**
 * The telescope (`Telescope`): locked until the sapling puzzle is solved;
 * interacting enters or leaves the telescope view; while in the view the
 * arrow keys turn it, with the pitch clamped, and its light shows whether it
 * points at the target.
 *
 * The engine lookups it makes (`Keyboard.current`, `Time.deltaTime`,
 * `Camera.main` and the components found on it or on the player) are inputs,
 * and so is the alignment, the dot product of the camera's forward vector
 * with the direction to the target.
 */
module TelescopeView {
  import opened Vectors
  import opened Engine
  import opened Sapling

  /** Which arrow keys are held this frame. */
  datatype Keys = Keys(left: bool, right: bool, up: bool, down: bool)

  /** `Mathf.Clamp`: below `min` gives `min`, otherwise above `max` gives `max`. */
  function Clamp(value: real, min: real, max: real): (r: real)
    ensures min <= max ==> min <= r <= max
    ensures min <= value <= max ==> r == value
    ensures r == value || r == min || r == max
  {
    if value < min then min else if value > max then max else value
  }

  /** The horizontal input: the right arrow overrides the left one. */
  function Horizontal(k: Keys): (h: real)
    ensures k.right ==> h == 1.0
    ensures !k.right && k.left ==> h == -1.0
    ensures !k.right && !k.left ==> h == 0.0
  {
    var h := if k.left then -1.0 else 0.0;
    if k.right then 1.0 else h
  }

  /** The vertical input: the down arrow overrides the up one. */
  function Vertical(k: Keys): (v: real)
    ensures k.down ==> v == -1.0
    ensures !k.down && k.up ==> v == 1.0
    ensures !k.down && !k.up ==> v == 0.0
  {
    var v := if k.up then 1.0 else 0.0;
    if k.down then -1.0 else v
  }

  /** The yaw (`horizontal`) and pitch (`vertical`), in degrees. */
  datatype Angles = Angles(horizontal: real, vertical: real)

  /** The angles after one frame of rotation with keys `k` held for `dt` seconds. */
  function RotateStep(a: Angles, k: Keys, rotationSpeed: real, verticalLimit: real, dt: real): (r: Angles)
    ensures verticalLimit >= 0.0 ==> -verticalLimit <= r.vertical <= verticalLimit
    ensures r.horizontal == a.horizontal + Horizontal(k) * rotationSpeed * dt
    ensures r.vertical == Clamp(a.vertical + Vertical(k) * rotationSpeed * dt, -verticalLimit, verticalLimit)
    ensures !k.left && !k.right ==> r.horizontal == a.horizontal
    ensures !k.up && !k.down && -verticalLimit <= a.vertical <= verticalLimit ==> r.vertical == a.vertical
  {
    var horizontal := a.horizontal + Horizontal(k) * rotationSpeed * dt;
    var vertical := a.vertical + Vertical(k) * rotationSpeed * dt;
    Angles(horizontal, Clamp(vertical, -verticalLimit, verticalLimit))
  }

  /** The angles after a run of frames, each with the keys held and its duration. */
  function RotateRun(a: Angles, frames: seq<(Keys, real)>, rotationSpeed: real, verticalLimit: real): Angles
    decreases |frames|
  {
    if frames == [] then a
    else RotateRun(RotateStep(a, frames[0].0, rotationSpeed, verticalLimit, frames[0].1), frames[1..], rotationSpeed, verticalLimit)
  }

  /**
   * Once the pitch is within the limit it stays there for any keys and any
   * frame times, and the yaw is never limited: holding right moves it by
   * the speed times the total time.
   */
  lemma {:induction false} PitchStaysWithinLimit(a: Angles, frames: seq<(Keys, real)>, rotationSpeed: real, verticalLimit: real)
    requires -verticalLimit <= a.vertical <= verticalLimit
    ensures var r := RotateRun(a, frames, rotationSpeed, verticalLimit);
      -verticalLimit <= r.vertical <= verticalLimit
    decreases |frames|
  {
    if frames != [] {
      var next := RotateStep(a, frames[0].0, rotationSpeed, verticalLimit, frames[0].1);
      PitchStaysWithinLimit(next, frames[1..], rotationSpeed, verticalLimit);
    }
  }

  function TotalTime(frames: seq<(Keys, real)>): real
    decreases |frames|
  {
    if frames == [] then 0.0 else frames[0].1 + TotalTime(frames[1..])
  }

  lemma {:induction false} HoldingRightTurns(a: Angles, frames: seq<(Keys, real)>, rotationSpeed: real, verticalLimit: real)
    requires forall i :: 0 <= i < |frames| ==> frames[i].0.right
    ensures RotateRun(a, frames, rotationSpeed, verticalLimit).horizontal == a.horizontal + rotationSpeed * TotalTime(frames)
    decreases |frames|
  {
    if frames != [] {
      var next := RotateStep(a, frames[0].0, rotationSpeed, verticalLimit, frames[0].1);
      assert forall i :: 0 <= i < |frames[1..]| ==> frames[1..][i].0.right by {
        forall i | 0 <= i < |frames[1..]| ensures frames[1..][i].0.right {
          assert frames[1..][i] == frames[i + 1];
        }
      }
      HoldingRightTurns(next, frames[1..], rotationSpeed, verticalLimit);
    }
  }

  /** The light rule of `CheckTargetAlignment`. */
  function Aligned(alignment: real, alignmentThreshold: real): bool
  {
    alignment >= alignmentThreshold
  }

  class Telescope {
    const telescopeCamera: Camera?
    const cameraRoot: Transform?
    const telescopeLight: Light?
    const rotationSpeed: real
    const verticalLimit: real
    const requiredPuzzle: SaplingPuzzle?
    /** Whether a target object is assigned. */
    const hasTarget: bool
    const alignmentThreshold: real
    const targetColor: Color
    var isActive: bool
    var playerCamera: Camera?
    var cameraFollow: Behaviour?
    var currentHorizontalAngle: real
    var currentVerticalAngle: real

    function CurrentAngles(): Angles
      reads this
    {
      Angles(currentHorizontalAngle, currentVerticalAngle)
    }

    /** The field initialisers. */
    constructor (telescopeCamera: Camera?, cameraRoot: Transform?, telescopeLight: Light?, rotationSpeed: real,
                 verticalLimit: real, requiredPuzzle: SaplingPuzzle?, hasTarget: bool, alignmentThreshold: real, targetColor: Color)
      ensures this.telescopeCamera == telescopeCamera && this.cameraRoot == cameraRoot && this.telescopeLight == telescopeLight
      ensures this.rotationSpeed == rotationSpeed && this.verticalLimit == verticalLimit && this.requiredPuzzle == requiredPuzzle
      ensures this.hasTarget == hasTarget && this.alignmentThreshold == alignmentThreshold && this.targetColor == targetColor
      ensures !isActive && playerCamera == null && cameraFollow == null
      ensures currentHorizontalAngle == 0.0 && currentVerticalAngle == 0.0
    {
      this.telescopeCamera := telescopeCamera;
      this.cameraRoot := cameraRoot;
      this.telescopeLight := telescopeLight;
      this.rotationSpeed := rotationSpeed;
      this.verticalLimit := verticalLimit;
      this.requiredPuzzle := requiredPuzzle;
      this.hasTarget := hasTarget;
      this.alignmentThreshold := alignmentThreshold;
      this.targetColor := targetColor;
      isActive := false;
      playerCamera := null;
      cameraFollow := null;
      currentHorizontalAngle := 0.0;
      currentVerticalAngle := 0.0;
    }

    /** The telescope's camera and light start switched off, which establishes `LightInv`. */
    method Start()
      modifies telescopeCamera, telescopeLight
      ensures telescopeCamera != null ==> !telescopeCamera.enabled
      ensures telescopeLight != null ==> !telescopeLight.enabled && telescopeLight.color == old(telescopeLight.color)
      ensures LightInv()
    {
      if telescopeCamera != null {
        telescopeCamera.enabled := false;
      }
      if telescopeLight != null {
        telescopeLight.enabled := false;
      }
    }

    /**
     * One frame; nothing happens unless the telescope view is active. While
     * active, the light reports the alignment whenever the camera, the target
     * and the light are all there, and `LightInv` is kept.
     */
    method Update(keyboard: Option<Keys>, dt: real, alignment: real)
      modifies this, cameraRoot, if telescopeCamera != null then {telescopeCamera.transform} else {}, telescopeLight
      ensures isActive == old(isActive) && playerCamera == old(playerCamera) && cameraFollow == old(cameraFollow)
      ensures !old(isActive) ==>
        && unchanged(this) && (cameraRoot != null ==> unchanged(cameraRoot))
        && (telescopeCamera != null ==> unchanged(telescopeCamera.transform)) && (telescopeLight != null ==> unchanged(telescopeLight))
      ensures old(isActive) && keyboard.Some? ==>
        CurrentAngles() == RotateStep(old(CurrentAngles()), keyboard.value, rotationSpeed, verticalLimit, dt)
      ensures old(isActive) && keyboard.None? ==>
        && CurrentAngles() == old(CurrentAngles())
        && (cameraRoot != null ==> unchanged(cameraRoot)) && (telescopeCamera != null ==> unchanged(telescopeCamera.transform))
      ensures old(isActive) && keyboard.Some? && cameraRoot != null ==>
        && cameraRoot.localRotation == Euler(currentVerticalAngle, currentHorizontalAngle, 0.0)
        && cameraRoot.parent == old(cameraRoot.parent) && cameraRoot.position == old(cameraRoot.position)
        && cameraRoot.localPosition == old(cameraRoot.localPosition)
      ensures old(isActive) && keyboard.Some? && cameraRoot == null && telescopeCamera != null ==>
        && telescopeCamera.transform.localRotation == Euler(currentVerticalAngle, currentHorizontalAngle, 0.0)
        && telescopeCamera.transform.parent == old(telescopeCamera.transform.parent)
        && telescopeCamera.transform.position == old(telescopeCamera.transform.position)
        && telescopeCamera.transform.localPosition == old(telescopeCamera.transform.localPosition)
      ensures old(isActive) && telescopeCamera != null && hasTarget && telescopeLight != null ==>
        && telescopeLight.enabled == Aligned(alignment, alignmentThreshold)
        && telescopeLight.color == (if Aligned(alignment, alignmentThreshold) then targetColor else old(telescopeLight.color))
        && IsLightOn() == Aligned(alignment, alignmentThreshold)
      ensures old(isActive) && !(telescopeCamera != null && hasTarget && telescopeLight != null) && telescopeLight != null ==>
        unchanged(telescopeLight)
      ensures old(LightInv()) ==> LightInv()
    {
      if isActive {
        HandleTelescopeRotation(keyboard, dt);
        CheckTargetAlignment(alignment);
      }
    }

    /**
     * The light is only ever switched on together with the target colour
     * (`Start` switches it off, `CheckTargetAlignment` sets both).
     */
    ghost predicate LightInv()
      reads this, telescopeLight
    {
      telescopeLight != null && telescopeLight.enabled ==> telescopeLight.color == targetColor
    }

    /**
     * The puzzle-complete indicator the cabinet reads: under `LightInv`, a
     * light that is on shows the target colour.
     */
    function IsLightOn(): (b: bool)
      reads this, telescopeLight
      ensures b ==> telescopeLight != null
      ensures LightInv() && b ==> telescopeLight.color == targetColor
    {
      telescopeLight != null && telescopeLight.enabled
    }

    /**
     * The light is on, in the target colour, exactly when the alignment
     * reaches the threshold; so `IsLightOn` reports the alignment.
     */
    method CheckTargetAlignment(alignment: real)
      modifies telescopeLight
      ensures telescopeCamera == null || !hasTarget || telescopeLight == null ==>
        telescopeLight != null ==> unchanged(telescopeLight)
      ensures telescopeCamera != null && hasTarget && telescopeLight != null ==>
        && telescopeLight.enabled == Aligned(alignment, alignmentThreshold)
        && telescopeLight.color == (if Aligned(alignment, alignmentThreshold) then targetColor else old(telescopeLight.color))
        && IsLightOn() == Aligned(alignment, alignmentThreshold)
        && LightInv()
      ensures old(LightInv()) ==> LightInv()
    {
      if telescopeCamera == null || !hasTarget || telescopeLight == null {
        return;
      }
      if alignment >= alignmentThreshold {
        telescopeLight.enabled := true;
        telescopeLight.color := targetColor;
      } else {
        telescopeLight.enabled := false;
      }
    }

    /**
     * The angles follow `RotateStep`; the camera root, or else the camera
     * itself, is turned to pitch and yaw. Without a keyboard nothing changes.
     */
    method HandleTelescopeRotation(keyboard: Option<Keys>, dt: real)
      modifies this`currentHorizontalAngle, this`currentVerticalAngle, cameraRoot,
        if telescopeCamera != null then {telescopeCamera.transform} else {}
      ensures keyboard.None? ==>
        && CurrentAngles() == old(CurrentAngles())
        && (cameraRoot != null ==> unchanged(cameraRoot)) && (telescopeCamera != null ==> unchanged(telescopeCamera.transform))
      ensures keyboard.Some? ==> CurrentAngles() == RotateStep(old(CurrentAngles()), keyboard.value, rotationSpeed, verticalLimit, dt)
      ensures keyboard.Some? && cameraRoot != null ==>
        && cameraRoot.localRotation == Euler(currentVerticalAngle, currentHorizontalAngle, 0.0)
        && cameraRoot.parent == old(cameraRoot.parent) && cameraRoot.position == old(cameraRoot.position)
        && cameraRoot.localPosition == old(cameraRoot.localPosition)
      ensures keyboard.Some? && cameraRoot == null && telescopeCamera != null ==>
        && telescopeCamera.transform.localRotation == Euler(currentVerticalAngle, currentHorizontalAngle, 0.0)
        && telescopeCamera.transform.parent == old(telescopeCamera.transform.parent)
        && telescopeCamera.transform.position == old(telescopeCamera.transform.position)
        && telescopeCamera.transform.localPosition == old(telescopeCamera.transform.localPosition)
    {
      if keyboard.None? {
        return;
      }
      var keys := keyboard.value;
      ghost var next := RotateStep(CurrentAngles(), keys, rotationSpeed, verticalLimit, dt);
      var horizontal := 0.0;
      var vertical := 0.0;
      if keys.left { horizontal := -1.0; }
      if keys.right { horizontal := 1.0; }
      if keys.up { vertical := 1.0; }
      if keys.down { vertical := -1.0; }
      assert horizontal == Horizontal(keys) && vertical == Vertical(keys);
      currentHorizontalAngle := currentHorizontalAngle + horizontal * rotationSpeed * dt;
      currentVerticalAngle := currentVerticalAngle + vertical * rotationSpeed * dt;
      currentVerticalAngle := Clamp(currentVerticalAngle, -verticalLimit, verticalLimit);
      assert CurrentAngles() == next;
      if cameraRoot != null {
        cameraRoot.localRotation := Euler(currentVerticalAngle, currentHorizontalAngle, 0.0);
      } else if telescopeCamera != null {
        telescopeCamera.transform.localRotation := Euler(currentVerticalAngle, currentHorizontalAngle, 0.0);
      }
    }

    /** Whether the required puzzle, if any, is still unsolved. */
    function Locked(): (b: bool)
      reads this, requiredPuzzle
      ensures b <==> requiredPuzzle != null && !requiredPuzzle.isShifted
    {
      requiredPuzzle != null && requiredPuzzle.GetState() == 0
    }

    /**
     * Interacting toggles the view unless the telescope is locked.
     * `mainCamera` is `Camera.main`, `mainCameraFollow` the `CameraFollow`
     * found on it, `interactorController` the interactor's `PlayerController`
     * and `playerController` the one of the object tagged "Player".
     */
    method Interact(mainCamera: Camera?, mainCameraFollow: Behaviour?, interactorController: Behaviour?, playerController: Behaviour?)
      modifies this, mainCamera, mainCameraFollow, interactorController, telescopeCamera, playerCamera, cameraFollow, playerController
      ensures Locked() ==>
        && unchanged(this)
        && (mainCamera != null ==> unchanged(mainCamera)) && (mainCameraFollow != null ==> unchanged(mainCameraFollow))
        && (interactorController != null ==> unchanged(interactorController)) && (telescopeCamera != null ==> unchanged(telescopeCamera))
        && (old(playerCamera) != null ==> unchanged(old(playerCamera))) && (old(cameraFollow) != null ==> unchanged(old(cameraFollow)))
        && (playerController != null ==> unchanged(playerController))
      ensures !Locked() ==> isActive == !old(isActive)
      ensures !Locked() && !old(isActive) ==> EnteredView(mainCamera, mainCameraFollow, interactorController, old(cameraFollow))
      ensures !Locked() && !old(isActive) ==>
        && (old(playerCamera) != null && old(playerCamera) != mainCamera && old(playerCamera) != telescopeCamera ==>
              unchanged(old(playerCamera)))
        && (old(cameraFollow) != null && old(cameraFollow) != mainCameraFollow && old(cameraFollow) != interactorController ==>
              unchanged(old(cameraFollow)))
        && (playerController != null && playerController != mainCameraFollow && playerController != interactorController ==>
              unchanged(playerController))
        && (mainCamera == null && mainCameraFollow != null && mainCameraFollow != interactorController ==> unchanged(mainCameraFollow))
      ensures !Locked() && old(isActive) ==> ExitedView(old(playerCamera), old(cameraFollow), playerController)
      ensures !Locked() && old(isActive) ==>
        && (mainCamera != null && mainCamera != old(playerCamera) && mainCamera != telescopeCamera ==> unchanged(mainCamera))
        && (mainCameraFollow != null && mainCameraFollow != old(cameraFollow) && mainCameraFollow != playerController ==>
              unchanged(mainCameraFollow))
        && (interactorController != null && interactorController != old(cameraFollow) && interactorController != playerController ==>
              unchanged(interactorController))
        && (old(playerCamera) == null && old(cameraFollow) != null && old(cameraFollow) != playerController ==>
              unchanged(old(cameraFollow)))
      ensures currentHorizontalAngle == old(currentHorizontalAngle) && currentVerticalAngle == old(currentVerticalAngle)
    {
      if requiredPuzzle != null && requiredPuzzle.GetState() == 0 {
        return;
      }
      if !isActive {
        EnterTelescopeView(mainCamera, mainCameraFollow, interactorController);
      } else {
        ExitTelescopeView(playerController);
      }
    }

    /**
     * The view is entered: the player's camera, its follow script and the
     * player's controls are off, the telescope camera on (it wins if it is
     * the main camera itself). Without a main camera the follow script
     * remembered before is kept.
     */
    ghost predicate EnteredView(mainCamera: Camera?, mainCameraFollow: Behaviour?, interactorController: Behaviour?, previousFollow: Behaviour?)
      reads this, mainCamera, mainCameraFollow, interactorController, telescopeCamera
    {
      && isActive
      && playerCamera == mainCamera
      && cameraFollow == (if mainCamera != null then mainCameraFollow else previousFollow)
      && (mainCamera != null && mainCamera != telescopeCamera ==> !mainCamera.enabled)
      && (mainCamera != null && mainCameraFollow != null ==> !mainCameraFollow.enabled)
      && (telescopeCamera != null ==> telescopeCamera.enabled)
      && (interactorController != null ==> !interactorController.enabled)
    }

    method EnterTelescopeView(mainCamera: Camera?, mainCameraFollow: Behaviour?, interactorController: Behaviour?)
      modifies this, mainCamera, mainCameraFollow, telescopeCamera, interactorController
      ensures EnteredView(mainCamera, mainCameraFollow, interactorController, old(cameraFollow))
      ensures currentHorizontalAngle == old(currentHorizontalAngle) && currentVerticalAngle == old(currentVerticalAngle)
      ensures mainCamera == null && mainCameraFollow != null && mainCameraFollow != interactorController ==> unchanged(mainCameraFollow)
    {
      isActive := true;
      playerCamera := mainCamera;
      if playerCamera != null {
        playerCamera.enabled := false;
        cameraFollow := mainCameraFollow;
        if cameraFollow != null {
          cameraFollow.enabled := false;
        }
      }
      if telescopeCamera != null {
        telescopeCamera.enabled := true;
      }
      if interactorController != null {
        interactorController.enabled := false;
      }
    }

    /**
     * The view is left: the remembered player camera and follow script and
     * the player's controls are on again, and the telescope camera off (it
     * wins if it is the remembered camera).
     */
    ghost predicate ExitedView(previousCamera: Camera?, previousFollow: Behaviour?, playerController: Behaviour?)
      reads this, previousCamera, previousFollow, telescopeCamera, playerController
    {
      && !isActive
      && playerCamera == previousCamera && cameraFollow == previousFollow
      && (previousCamera != null && previousFollow != null ==> previousFollow.enabled)
      && (previousCamera != null && previousCamera != telescopeCamera ==> previousCamera.enabled)
      && (telescopeCamera != null ==> !telescopeCamera.enabled)
      && (playerController != null ==> playerController.enabled)
    }

    method ExitTelescopeView(playerController: Behaviour?)
      modifies this, playerCamera, cameraFollow, telescopeCamera, playerController
      ensures ExitedView(old(playerCamera), old(cameraFollow), playerController)
      ensures currentHorizontalAngle == old(currentHorizontalAngle) && currentVerticalAngle == old(currentVerticalAngle)
      ensures playerCamera == null && cameraFollow != null && cameraFollow != playerController ==> unchanged(cameraFollow)
    {
      isActive := false;
      if playerCamera != null {
        playerCamera.enabled := true;
        if cameraFollow != null {
          cameraFollow.enabled := true;
        }
      }
      if telescopeCamera != null {
        telescopeCamera.enabled := false;
      }
      if playerController != null {
        playerController.enabled := true;
      }
    }
  }
}
