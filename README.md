# Protostar gameplay core in Dafny

A model of the gameplay logic in the Unity game Protostar, with proofs about it. The model covers:

- the global gravity field, which moves its direction towards a commanded target by spherical interpolation;
- the rigid bodies that read that field;
- the ramp triggers that command it;
- the carry and pickup state machines of the seeds and other pickupable objects;
- both variants of the interactor (ray-cast focus, engage/disengage, scroll forwarding) and the player's interactor with its carry logic;
- the puzzle chain: the sapling counts seeds in a zone and shifts into a tree; once the sapling is a tree, the telescope can be used, and it lights up when aimed at its target; the cabinet opens when the telescope's light comes on;
- the shift and focus bookkeeping: the shiftable object's state roots, the shift-state controller's flags, the focus broadcaster, and the outline and colour focus effects.

Each C# component is a Dafny `class` in a module of its own, one file per source file. Fields the component updates are `var` fields. Engine objects it writes to (game objects, colliders, rigidbodies, cameras, lights, renderers, transforms) are small classes in `engine.dfy`. Each method states the new state of everything it may modify, except where "Left out" names a gap. Where the component runs a state machine, that machine is also written as a pure function over a datatype. The method is proved to perform one step of it, and the properties of runs are lemmas about that function:

- the gravity `Field` with `Advance` and `Command`;
- the interactor's `CastStep` and `InteractStep`;
- the seed zone's `ZoneAfter` and `ZoneStep`;
- the telescope's `RotateStep`;
- the cabinet's `Tick`;
- the player's `PickupStep`.

Calls a component makes on other components, which it knows only through interfaces (`IFocusable`, `IEngageable`, `IPickupable`, `IFocusEffect`, `ShiftCapability`), are recorded in order in a ghost call log. Engine queries are parameters of the method that uses them:

- the ray-cast result;
- the keyboard state;
- `Time.deltaTime`;
- `Camera.main`;
- the target alignment (a dot product);
- the component lookups.

Vectors and rotations are symbolic terms (`vectors.dfy`): a literal, or an engine operation (`normalized`, `Slerp`, `AngleAxis`, `Euler`, `*`, `+`, unary `-`) applied to other terms. The operations build terms through smart constructors. These apply only laws the engine's operations satisfy, for example `Slerp(a, b, t) == b` for `t >= 1`. So an equality between terms proved here holds of the vectors they stand for. A disequality between terms says nothing about the vectors. Scalars are `real`.

## Model

| member | source | states |
|---|---|---|
| Vectors.Normalize | Protostar/Assets/GravityController.cs:43 | `.normalized` gives back a normalised term, and a term that is already normalised unchanged |
| Vectors.Slerp | Protostar/Assets/GravityController.cs:56 | `Vector3.Slerp` clamps its parameter: at or below 0 it is the start, at or above 1 the end |
| Vectors.NormalizeScaled | Protostar/Assets/GravityController.cs:62 | normalising a vector scaled by a positive strength gives the direction of the original |
| Gravity.Clamp01 | Protostar/Assets/GravityController.cs:53 | `Mathf.Clamp01`: the result lies in [0, 1]; values inside are kept, values outside clamp to the nearer bound |
| Gravity.Advance | Protostar/Assets/GravityController.cs:47-58 | one frame keeps the field invariant; once settled (progress >= 1) nothing changes; progress never decreases for dt >= 0; when a transition completes, the direction is the target; end points, strength and duration are untouched |
| Gravity.Command | Protostar/Assets/GravityController.cs:65-70 | a command restarts the transition from the current direction towards the normalised input at progress 0, keeping the invariant, the current direction, the strength and the duration |
| Gravity.GravityVector | Protostar/Assets/GravityController.cs:60-63 | with a positive strength, the gravity vector points along the normalised current direction |
| Gravity.Run | Protostar/Assets/GravityController.cs:47-58 | any sequence of frames keeps the field invariant (progress in [0, 1], direction on the interpolation while under way) |
| Gravity.RunProgress | Protostar/Assets/GravityController.cs:50-53 | over frames of non-negative length, progress is the start progress plus elapsed time over duration, capped at 1; end points, strength and duration do not change |
| Gravity.TransitionReachesTarget | Protostar/Assets/GravityController.cs:50-57 | a transition under way ends with progress 1 and the direction equal to its target once enough time has elapsed |
| Gravity.SettledRunIsIdle | Protostar/Assets/GravityController.cs:50 | a settled field is not changed by any sequence of frames |
| Gravity.CommandThenSettle | Protostar/Assets/GravityController.cs:47-70 | after a command followed by at least the transition duration of frames, the direction is the normalised commanded vector and the strength is unchanged |
| Gravity.InterruptStartsFromCurrent | Protostar/Assets/GravityController.cs:67 | a command issued mid-transition starts from the interpolated direction, not from the previous start |
| Gravity.GravityController.Awake | Protostar/Assets/GravityController.cs:31-45 | the controller starts settled (progress 1) with target and previous equal to the normalised configured direction and no commands; the invariant holds |
| Gravity.GravityController.Update | Protostar/Assets/GravityController.cs:47-58 | the controller's state after a frame is `Advance` of its state before; the invariant is kept |
| Gravity.GravityController.GetGravity | Protostar/Assets/GravityController.cs:60-63 | the result is the gravity vector of the current state |
| Gravity.GravityController.SetGravityDirection | Protostar/Assets/GravityController.cs:65-70 | the new state is `Command` of the old one with the given vector, which is appended to the command log |
| Gravity.GravityController.SetGravityDirectionXYZ | Protostar/Assets/GravityController.cs:72-75 | the component overload behaves as the vector overload on `(x, y, z)` |
| Gravity.GravityController.RotateGravityAroundAxis | Protostar/Assets/GravityController.cs:77-82 | equals a command with the current direction rotated by `AngleAxis(degrees, axis)` |
| GravityBody.CustomGravityBody.Awake | Protostar/Assets/Scripts/CustomGravityBody.cs:8-13 | the engine's own gravity is switched off for the body; nothing else on the rigidbody changes |
| GravityBody.CustomGravityBody.FixedUpdate | Protostar/Assets/Scripts/CustomGravityBody.cs:15-23 | with a controller, exactly one acceleration equal to the controller's gravity is added; without one, none |
| GravityBody.CustomGravityBody.GetGravityDirection | Protostar/Assets/Scripts/CustomGravityBody.cs:25-32 | without a controller the direction is `Vector3.down`; with one, the normalised controller gravity, which for a positive strength is the normalised field direction |
| GravityBody.CustomGravityBody.GetUpDirection | Protostar/Assets/Scripts/CustomGravityBody.cs:34-38 | up is the negation of the gravity direction, so negating it gives the gravity direction back; up is `Vector3.up` without a controller |
| GravityBody.CustomGravityBody.SetCustomGravityDirection | Protostar/Assets/Scripts/Objects/SeedObject.cs:61 | the setter the seed calls stores the direction in a field of its own; no getter reads it |
| GravityRamp.FiresOnExactlyOneEdge | Protostar/Assets/Scripts/GravityRampTrigger.cs:16-30 | only colliders tagged "Player" fire, and for the player exactly one of enter and exit fires, as `triggerOnEnter` selects |
| GravityRamp.RampDirection | Protostar/Assets/Scripts/GravityRampTrigger.cs:36-45 | with ramp orientation the direction is the ramp's negated up vector, otherwise the normalised configured vector |
| GravityRamp.GravityRampTrigger.OnTriggerEnter | Protostar/Assets/Scripts/GravityRampTrigger.cs:16-22 | on a firing entry the field receives one ramp-direction command; otherwise the field is unchanged |
| GravityRamp.GravityRampTrigger.OnTriggerExit | Protostar/Assets/Scripts/GravityRampTrigger.cs:24-30 | on a firing exit the field receives one ramp-direction command; otherwise the field is unchanged |
| GravityRamp.GravityRampTrigger.ApplyGravityChange | Protostar/Assets/Scripts/GravityRampTrigger.cs:32-51 | exactly one `SetGravityDirection` call with the ramp direction: the field's new state is `Command` of the old one |
| Seed.NonTriggers | Protostar/Assets/Scripts/Objects/SeedObject.cs:26-35 | the kept colliders are exactly the non-trigger ones of the input |
| Seed.NonTriggersAppend | Protostar/Assets/Scripts/Objects/SeedObject.cs:28-34 | filtering distributes over concatenation, so the original order is kept |
| Seed.FilterPhysicsColliders | Protostar/Assets/Scripts/Objects/SeedObject.cs:26-35 | the list-building loop computes exactly the non-trigger colliders |
| Seed.SeedObject.constructor | Protostar/Assets/Scripts/Objects/SeedObject.cs:16-18 | the seed starts not picked up, with no picker and no physics colliders |
| Seed.SeedObject.Awake | Protostar/Assets/Scripts/Objects/SeedObject.cs:20-39 | the physics colliders are the non-trigger children, and the gravity body's direction is the normalised negated local up |
| Seed.SeedObject.Update | Protostar/Assets/Scripts/Objects/SeedObject.cs:41-52 | while held by a picker with a gravity body, the seed's direction becomes the normalised picker direction; otherwise the seed's body is unchanged |
| Seed.SeedObject.SetGravityDirection | Protostar/Assets/Scripts/Objects/SeedObject.cs:57-63 | with a gravity body, its direction becomes the normalised input; without one, nothing changes |
| Seed.SeedObject.GetGravityDirection | Protostar/Assets/Scripts/Objects/SeedObject.cs:68-75 | the gravity body's direction, or `Vector3.down` without one |
| Seed.SeedObject.OnPickup | Protostar/Assets/Scripts/Objects/SeedObject.cs:77-101 | the picker is recorded, the seed is held, the rigidbody kinematic with its gravity flag and added accelerations kept, and every physics collider and the pickup trigger disabled |
| Seed.SeedObject.OnDrop | Protostar/Assets/Scripts/Objects/SeedObject.cs:103-128 | held and picker are cleared, the rigidbody is non-kinematic with its gravity flag and added accelerations kept, colliders and trigger are enabled, and the gravity body is untouched |
| Pickupable.PickupableObject.Awake | Protostar/Assets/Scripts/Objects/PickupableObject.cs:8-14 | the object starts not picked up, holding the rigidbody and collider lookups |
| Pickupable.PickupableObject.OnPickup | Protostar/Assets/Scripts/Objects/PickupableObject.cs:16-42 | when already held, nothing changes; otherwise it is held, the parent is recorded, the rigidbody is kinematic, and every non-null collider is disabled |
| Pickupable.PickupableObject.OnDrop | Protostar/Assets/Scripts/Objects/PickupableObject.cs:44-69 | when not held, nothing changes; otherwise it is released, the rigidbody is non-kinematic, and every non-null collider is enabled |
| Interaction.CastStep | Protostar/Assets/Scripts/Objects/Interaction/Interactor.cs:20-43 | hover and focus become what the ray finds (none on a miss); engagement is kept; focus calls are made only on a change, `Unfocus` on the old then `Focus` on the new, each only when present |
| Interaction.InteractStep | Protostar/Assets/Scripts/Objects/Interaction/Interactor.cs:46-62 | while engaged, the engaged object is disengaged and cleared and nothing else is called; otherwise the hovered engageable is engaged and the hovered interactable is interacted with |
| Interaction.ScrollStep | Protostar/Assets/Scripts/Objects/Interaction/Interactor.cs:64-70 | the state is unchanged; a `Shift(direction)` call is made exactly when the engaged object is shiftable |
| Interaction.EngageThenDisengage | Protostar/Assets/Scripts/Objects/Interaction/Interactor.cs:46-62 | two interactions over a hovered engageable engage it, then disengage it and clear the engagement |
| Interaction.CastIsStable | Protostar/Assets/Scripts/Objects/Interaction/Interactor.cs:34-39 | casting twice with the same ray result changes nothing more and makes no focus calls the second time |
| Interaction.FocusCallsTrackFocus | Protostar/Assets/Scripts/Objects/Interaction/Interactor.cs:34-39 | over any run of casts, replaying the focus calls made gives exactly the final focused object |
| Interaction.Interactor.Update | Protostar/Assets/Scripts/Objects/Interaction/Interactor.cs:15-18 | a frame performs one cast step |
| Interaction.Interactor.Cast | Protostar/Assets/Scripts/Objects/Interaction/Interactor.cs:20-43 | the new state and the calls made are those of `CastStep` |
| Interaction.Interactor.Interact | Protostar/Assets/Scripts/Objects/Interaction/Interactor.cs:46-62 | the new state and the calls made are those of `InteractStep` |
| Interaction.Interactor.Scroll | Protostar/Assets/Scripts/Objects/Interaction/Interactor.cs:64-70 | the state is unchanged and the calls made are those of `ScrollStep` |
| LegacyInteraction.LegacyCastFrame | Protostar/Assets/Scripts/Objects/Interactor.cs:19-37 | `Hovered` is never written; with the same focus nothing happens; a frame that dereferences a null focus leaves the state as it was; otherwise `Unfocus` old, `Focus` new, and the focus changes |
| LegacyInteraction.FirstFocusThrows | Protostar/Assets/Scripts/Objects/Interactor.cs:31-36 | from no focus, a ray that finds a focusable makes the frame throw before any call, focusing nothing |
| LegacyInteraction.LegacyNeverFocuses | Protostar/Assets/Scripts/Objects/Interactor.cs:19-37 | from no focus, no sequence of frames ever focuses anything or makes any call |
| LegacyInteraction.CastNullSafe | Protostar/Assets/Scripts/Objects/Interactor.cs:31-36 | the corrected cast: focus becomes what the ray finds, with null-safe `Unfocus`/`Focus` calls only on a change |
| LegacyInteraction.CastNullSafeAgrees | Protostar/Assets/Scripts/Objects/Interactor.cs:31-36 | wherever the cast as written does not throw, the corrected cast does the same |
| LegacyInteraction.CastNullSafeFocuses | Protostar/Assets/Scripts/Objects/Interactor.cs:31-36 | the corrected cast focuses what the first ray finds, from the initial state |
| LegacyInteraction.LegacyInteractStep | Protostar/Assets/Scripts/Objects/Interactor.cs:40-59 | engaged: disengage and clear; otherwise a hovered engageable is engaged instead of interacted with; any other hovered object is interacted with; with nothing hovered, nothing happens |
| LegacyInteraction.LegacyEngageThenDisengage | Protostar/Assets/Scripts/Objects/Interactor.cs:40-59 | two interactions over a hovered engageable return to the start state, calling exactly `Engage` then `Disengage` |
| LegacyInteraction.LegacyInteractor.Update | Protostar/Assets/Scripts/Objects/Interactor.cs:14-17 | a frame that does not throw performs one as-written cast |
| LegacyInteraction.LegacyInteractor.Cast | Protostar/Assets/Scripts/Objects/Interactor.cs:19-37 | the new state and calls are those of the as-written cast, for frames that do not dereference null |
| LegacyInteraction.LegacyInteractor.Interact | Protostar/Assets/Scripts/Objects/Interactor.cs:40-59 | the new state and calls are those of `LegacyInteractStep`; the engaged object is always engageable |
| LegacyInteraction.LegacyInteractor.Scroll | Protostar/Assets/Scripts/Objects/Interactor.cs:61-67 | the state is unchanged; one `Shift` call exactly when the engaged object is shiftable |
| PlayerInteraction.ShiftDirection | Protostar/Assets/Scripts/Objects/Interaction/PlayerInteractor.cs:28 | the direction is +1 or -1, and +1 exactly when the value is positive (zero gives -1) |
| PlayerInteraction.PickupStep | Protostar/Assets/Scripts/Objects/Interaction/PlayerInteractor.cs:33-49 | a release changes nothing; a press drops what is carried, else picks up what is hovered, else changes nothing |
| PlayerInteraction.PickupThenDrop | Protostar/Assets/Scripts/Objects/Interaction/PlayerInteractor.cs:33-49 | two presses over a pickupable pick it up and then drop it, notifying it in that order |
| PlayerInteraction.PickupRunAlternates | Protostar/Assets/Scripts/Objects/Interaction/PlayerInteractor.cs:37-48 | over any input sequence, pickup and drop notifications alternate, each drop is for the object last picked up, and the final carry state matches |
| PlayerInteraction.PlayerInteractor.constructor | Protostar/Assets/Scripts/Objects/Interaction/PlayerInteractor.cs:10-11 | nothing is carried at the start, and the carry invariant holds |
| PlayerInteraction.PlayerInteractor.OnInteract | Protostar/Assets/Scripts/Objects/Interaction/PlayerInteractor.cs:13-21 | the base interactor interacts exactly on a press while nothing is carried; otherwise it is unchanged |
| PlayerInteraction.PlayerInteractor.OnShift | Protostar/Assets/Scripts/Objects/Interaction/PlayerInteractor.cs:23-31 | while nothing is carried, the base interactor scrolls by `ShiftDirection(value)`; otherwise it is unchanged |
| PlayerInteraction.PlayerInteractor.OnPickup | Protostar/Assets/Scripts/Objects/Interaction/PlayerInteractor.cs:33-49 | the carry state and the notifications follow `PickupStep`; a release changes nothing, transforms included; a press while carrying unparents the carried object at the drop point and leaves the hovered object alone; a press with empty hands parents the hovered object at the hold point with zero offset and identity rotation; the carry invariant is kept |
| PlayerInteraction.PlayerInteractor.TryPickupObject | Protostar/Assets/Scripts/Objects/Interaction/PlayerInteractor.cs:51-75 | with nothing hovered, nothing changes; otherwise both carry fields are set, the object is parented at the hold point with zero offset and identity rotation, and it is notified |
| PlayerInteraction.PlayerInteractor.DropObject | Protostar/Assets/Scripts/Objects/Interaction/PlayerInteractor.cs:77-93 | with nothing carried, nothing changes; otherwise the object is unparented at position + forward * dropDistance, notified, and both carry fields are cleared |
| Sapling.ZoneMembership | Protostar/Assets/Scripts/Objects/SaplingPuzzle.cs:38-60 | a seed is in the zone exactly when its last event was an entry, or, with no event about it, when it was in at the start; re-entries never double-count |
| Sapling.ZoneBounded | Protostar/Assets/Scripts/Objects/SaplingPuzzle.cs:38-60 | only seeds that were present at the start or entered at some point can be in the zone |
| Sapling.ZoneStep | Protostar/Assets/Scripts/Objects/SaplingPuzzle.cs:38-65 | one trigger callback for a seed: the zone holds what `ZoneAfter` gives for that event, and interactability is recomputed from its count |
| Sapling.ZoneRunReady | Protostar/Assets/Scripts/Objects/SaplingPuzzle.cs:38-65 | after any non-empty run of seed entries and exits, the zone is `ZoneAfter` of the run and the sapling is interactable exactly when that zone holds enough seeds and it is unshifted |
| Sapling.SaplingPuzzle.constructor | Protostar/Assets/Scripts/Objects/SaplingPuzzle.cs:10-21 | the zone starts empty and the sapling not interactable, with the configured `isShifted` |
| Sapling.SaplingPuzzle.Start | Protostar/Assets/Scripts/Objects/SaplingPuzzle.cs:23-36 | the sapling is shown, and the tree hidden unless it is the same object |
| Sapling.SaplingPuzzle.OnTriggerEnter | Protostar/Assets/Scripts/Objects/SaplingPuzzle.cs:38-48 | a seed is added to the set and readiness recomputed, which is one `ZoneStep`; a non-seed changes nothing |
| Sapling.SaplingPuzzle.OnTriggerExit | Protostar/Assets/Scripts/Objects/SaplingPuzzle.cs:50-60 | a seed is removed from the set and readiness recomputed, which is one `ZoneStep`; a non-seed changes nothing |
| Sapling.SaplingPuzzle.UpdateInteractableState | Protostar/Assets/Scripts/Objects/SaplingPuzzle.cs:62-71 | interactable exactly when the zone holds at least the required seeds and the sapling is not shifted |
| Sapling.SaplingPuzzle.Interact | Protostar/Assets/Scripts/Objects/SaplingPuzzle.cs:73-89 | when ready, it shifts; otherwise nothing changes; the interactable flag keeps its value |
| Sapling.SaplingPuzzle.Shift | Protostar/Assets/Scripts/Objects/SaplingPuzzle.cs:92-147 | refused unless ready and unshifted; otherwise it becomes shifted, every seed that was in the zone is hidden, the set is emptied, the sapling is hidden, the tree is shown and the zone is disabled; shifting is one-way, and the interactable flag keeps its value |
| Sapling.SaplingPuzzle.CanShift | Protostar/Assets/Scripts/Objects/SaplingPuzzle.cs:149-152 | true exactly when interactable and unshifted, and then the zone holds enough seeds |
| Sapling.SaplingPuzzle.GetState | Protostar/Assets/Scripts/Objects/SaplingPuzzle.cs:154-157 | 0 or 1, and 1 exactly when shifted |
| TelescopeView.Clamp | Protostar/Assets/Scripts/Objects/Telescope.cs:134 | `Mathf.Clamp`: the result lies between the bounds, keeps values inside them, and is always the value or a bound |
| TelescopeView.Horizontal | Protostar/Assets/Scripts/Objects/Telescope.cs:124-125 | the right arrow overrides the left one |
| TelescopeView.Vertical | Protostar/Assets/Scripts/Objects/Telescope.cs:126-127 | the down arrow overrides the up one |
| TelescopeView.RotateStep | Protostar/Assets/Scripts/Objects/Telescope.cs:121-134 | the yaw moves by input * speed * dt, unclamped; the pitch moves the same way but is clamped to the vertical limit; without keys, both stay |
| TelescopeView.PitchStaysWithinLimit | Protostar/Assets/Scripts/Objects/Telescope.cs:130-134 | starting within the vertical limit, the pitch stays within it over any run of frames |
| TelescopeView.HoldingRightTurns | Protostar/Assets/Scripts/Objects/Telescope.cs:124-130 | holding right for a run of frames turns the yaw by speed times the total time |
| TelescopeView.Telescope.constructor | Protostar/Assets/Scripts/Objects/Telescope.cs:29-33 | the view starts inactive, with both angles at 0 and no remembered camera |
| TelescopeView.Telescope.Start | Protostar/Assets/Scripts/Objects/Telescope.cs:35-68 | the telescope camera and light start switched off, which establishes the light invariant |
| TelescopeView.Telescope.Update | Protostar/Assets/Scripts/Objects/Telescope.cs:70-77 | while inactive nothing changes; while active, the angles follow one rotation step, the Euler rotation is written to the camera root (or the camera) whose parent and positions stay, `IsLightOn` reports the alignment when camera, target and light are all present and the light is unchanged otherwise, and the light invariant is kept |
| TelescopeView.Telescope.IsLightOn | Protostar/Assets/Scripts/Objects/Telescope.cs:79-85 | the puzzle-complete indicator: when it is on, the light exists and, under the invariant that the light is only ever on in the target colour, shows the target colour |
| TelescopeView.Telescope.CheckTargetAlignment | Protostar/Assets/Scripts/Objects/Telescope.cs:87-113 | with the camera, target and light all present, the light is on in the target colour exactly when the alignment reaches the threshold, so `IsLightOn` reports the alignment and the light invariant holds; otherwise nothing changes |
| TelescopeView.Telescope.HandleTelescopeRotation | Protostar/Assets/Scripts/Objects/Telescope.cs:115-179 | without a keyboard nothing changes; otherwise the angles follow `RotateStep`, and the Euler rotation goes to the camera root, or to the camera when there is no root, whose parent, position and local position stay |
| TelescopeView.Telescope.Locked | Protostar/Assets/Scripts/Objects/Telescope.cs:184 | locked exactly when a required puzzle exists and is not shifted |
| TelescopeView.Telescope.Interact | Protostar/Assets/Scripts/Objects/Telescope.cs:181-200 | when locked, nothing changes; otherwise the view toggles, entering or exiting it, and the objects only the other branch writes (the remembered camera, follow script and player controls on entry; the main camera, its follow script and the interactor's controls on exit) are unchanged unless they are also written by the branch taken; the angles persist |
| TelescopeView.Telescope.EnterTelescopeView | Protostar/Assets/Scripts/Objects/Telescope.cs:202-234 | active; the main camera and its follow script are remembered and switched off, the telescope camera is on, and the interactor's controls are off |
| TelescopeView.Telescope.ExitTelescopeView | Protostar/Assets/Scripts/Objects/Telescope.cs:236-270 | inactive; the remembered camera and follow script are back on, the telescope camera is off, and the player's controls are on; with no remembered camera, the remembered follow script is untouched |
| CabinetLatch.Tick | Protostar/Assets/Scripts/Objects/Cabinet.cs:48-63 | open is a latch; an open cabinet, or one without a telescope, ignores the light; a closed one opens exactly on a rising edge and remembers the reading; the sound plays once on opening |
| CabinetLatch.OpensIffLightSeen | Protostar/Assets/Scripts/Objects/Cabinet.cs:48-63 | from a consistent state with a telescope, the cabinet ends open exactly when it was open or some frame saw the light on; the sound plays at most once |
| CabinetLatch.NeverOpensWithoutTelescope | Protostar/Assets/Scripts/Objects/Cabinet.cs:51 | without a telescope no sequence of frames changes the cabinet |
| CabinetLatch.Cabinet.constructor | Protostar/Assets/Scripts/Objects/Cabinet.cs:25-26 | the cabinet starts closed, with no light seen, no sound played and the demo running |
| CabinetLatch.Cabinet.Start | Protostar/Assets/Scripts/Objects/Cabinet.cs:28-46 | the closed model is shown, and the open model and the book are hidden |
| CabinetLatch.Cabinet.Update | Protostar/Assets/Scripts/Objects/Cabinet.cs:48-63 | the new state is `Tick` of the old one with the telescope's light reading; on opening the open models show, otherwise the models are unchanged |
| CabinetLatch.Cabinet.OpenCabinet | Protostar/Assets/Scripts/Objects/Cabinet.cs:65-90 | the cabinet is open, the closed model hidden, the open model and the book shown, and the sound played once more |
| CabinetLatch.Cabinet.Interact | Protostar/Assets/Scripts/Objects/Cabinet.cs:92-103 | the demo ends exactly when the cabinet is open |
| Shiftable.TruncRem | Protostar/Assets/Scripts/Objects/ShiftableObject.cs:12 | C#'s `%`: the remainder takes the dividend's sign, is smaller than the divisor in magnitude, and completes the truncated division |
| Shiftable.ShiftBackFromFirst | Protostar/Assets/Scripts/Objects/ShiftableObject.cs:12 | shifting back from state 0 computes -1, not the last index |
| Shiftable.ShiftableObject.constructor | Protostar/Assets/Scripts/Objects/ShiftableObject.cs:6-8 | the state index starts at 0 and the object is not engaged |
| Shiftable.ShiftableObject.DisableStates | Protostar/Assets/Scripts/Objects/ShiftableObject.cs:15-21 | every state root is hidden |
| Shiftable.ShiftableObject.ChangeState | Protostar/Assets/Scripts/Objects/ShiftableObject.cs:23-28 | the old root is hidden, root `index` shown, and `index` is current; other roots are unchanged and "only the current root shown" is preserved, also for `index` equal to the current index |
| Shiftable.ShiftableObject.Start | Protostar/Assets/Scripts/Objects/ShiftableObject.cs:30-34 | with states, afterwards state 0 is current and only its root is shown; without states the call throws after hiding nothing, and the index is unchanged |
| Shiftable.ShiftableObject.Engage | Protostar/Assets/Scripts/Objects/ShiftableObject.cs:46-50 | engaged, nothing else changed |
| Shiftable.ShiftableObject.Disengage | Protostar/Assets/Scripts/Objects/ShiftableObject.cs:52-56 | not engaged, nothing else changed |
| ShiftStates.ShiftStateController.Start | Protostar/Assets/Scripts/Objects/Shift/ShiftStateController.cs:10-15 | the three lookups are captured, and no capability has been called yet |
| ShiftStates.ShiftStateController.SetActive | Protostar/Assets/Scripts/Objects/Shift/ShiftStateController.cs:17-41 | every mesh renderer and collider is enabled exactly when `active` (so a repeated call changes no flag); each capability, in order, receives one `Enable` if active, else one `Disable` |
| ShiftStates.ShiftStateController.SetRenderersEnabled | Protostar/Assets/Scripts/Objects/Shift/ShiftStateController.cs:19-22 | every mesh renderer is enabled exactly when `active`; its mask and colour are unchanged |
| ShiftStates.ShiftStateController.SetCollidersEnabled | Protostar/Assets/Scripts/Objects/Shift/ShiftStateController.cs:24-27 | every collider is enabled exactly when `active` |
| ShiftStates.ShiftStateController.SwitchCapabilities | Protostar/Assets/Scripts/Objects/Shift/ShiftStateController.cs:29-40 | each capability, in order, receives one `Enable` if active, else one `Disable` |
| FocusBroadcast.SimpleFocusable.Start | Protostar/Assets/Scripts/Objects/Focus/SimpleFocusable.cs:7-10 | the effects are captured once, and none has been called |
| FocusBroadcast.SimpleFocusable.Focus | Protostar/Assets/Scripts/Objects/Focus/SimpleFocusable.cs:11-17 | each effect, in order, receives exactly one `OnFocus`, whatever the interactor |
| FocusBroadcast.SimpleFocusable.Unfocus | Protostar/Assets/Scripts/Objects/Focus/SimpleFocusable.cs:19-25 | each effect, in order, receives exactly one `OnUnfocus`, whatever the interactor |
| OutlineFocus.Outlined | Protostar/Assets/Scripts/Objects/Focus/Effects/OutlineFocusEffect.cs:28 | an outlined mask contains all the outline bits and all the original bits |
| OutlineFocus.OutlinedChangesMask | Protostar/Assets/Scripts/Objects/Focus/Effects/OutlineFocusEffect.cs:28 | outlining leaves a mask unchanged exactly when it already contains the outline |
| OutlineFocus.Focus | Protostar/Assets/Scripts/Objects/Focus/Effects/OutlineFocusEffect.cs:27-28 | focusing one renderer records its mask before the outline is added |
| OutlineFocus.FocusUnfocusRestores | Protostar/Assets/Scripts/Objects/Focus/Effects/OutlineFocusEffect.cs:27-39 | focus then unfocus gives the renderer back its pre-focus mask |
| OutlineFocus.RefocusKeepsOutline | Protostar/Assets/Scripts/Objects/Focus/Effects/OutlineFocusEffect.cs:27-39 | a second focus before unfocusing records the outlined mask, so the unfocus keeps the outline, and the original is lost unless it already had it |
| OutlineFocus.OutlineFocusEffect.constructor | Protostar/Assets/Scripts/Objects/Focus/Effects/OutlineFocusEffect.cs:9-10 | no renderers and an empty record before `Start` |
| OutlineFocus.OutlineFocusEffect.Start | Protostar/Assets/Scripts/Objects/Focus/Effects/OutlineFocusEffect.cs:12-19 | an unset base object defaults to the component's own game object, whose child renderers are captured |
| OutlineFocus.OutlineFocusEffect.OnFocus | Protostar/Assets/Scripts/Objects/Focus/Effects/OutlineFocusEffect.cs:21-31 | before `Start` nothing happens; otherwise each renderer's mask is recorded and then gains the outline, records for other renderers are kept, and nothing else about a renderer changes |
| OutlineFocus.OutlineFocusEffect.RecordAndOutline | Protostar/Assets/Scripts/Objects/Focus/Effects/OutlineFocusEffect.cs:27-28 | one renderer: its mask state takes the `Focus` step, its current mask recorded under it and then outlined; other records are kept |
| OutlineFocus.OutlineFocusEffect.OnUnfocus | Protostar/Assets/Scripts/Objects/Focus/Effects/OutlineFocusEffect.cs:33-42 | each renderer's mask becomes its recorded value, the `Unfocus` step on its mask state; every renderer must have been recorded |
| ColorFocus.ColorFocusEffect.Start | Protostar/Assets/Scripts/Objects/Focus/Effects/ColorFocusEffect.cs:11-19 | with a base object, a new colour array of the renderers' length is captured, entry i being renderer i's colour; without one the lookup throws and the component is unchanged |
| ColorFocus.ColorFocusEffect.OnFocus | Protostar/Assets/Scripts/Objects/Focus/Effects/ColorFocusEffect.cs:21-30 | every renderer takes the focus colour and the captured colours stay as they are; before `Start` nothing happens |
| ColorFocus.ColorFocusEffect.OnUnfocus | Protostar/Assets/Scripts/Objects/Focus/Effects/ColorFocusEffect.cs:32-41 | renderer i takes captured colour i back, so any number of focuses followed by one unfocus restores the colours of `Start` |

## Left out

- Floating point: scalars are `real` and vectors symbolic terms, so rounding, NaN and the geometry of `Slerp`, `normalized` and rotations are not modelled. Only the laws named in `vectors.dfy` are used.
- The `GravityController.Instance` singleton, the `Destroy` of a second instance in `Awake`, and `FindFirstObjectByType`: a body is given its controller, or none, as a field. The ramp trigger is given a controller that is not null.
- `transitionDuration` is required to be positive. The source divides by it without a check.
- Gizmos, `Debug.Log`, `Debug.LogWarning`, the cursor and `Application.Quit`/`EditorApplication.isPlaying` are output channels. The end of the demo is a flag, and the cabinet's opening sound (`AudioManager.PlayOneShot`) is a counter.
- The physics response (forces, kinematic motion) and the coupling of a transform's `position` and `localPosition` under parenting: transforms are independent fields.
- `Physics.Raycast`, `GetComponentInParent`, `GetComponentsInChildren`, `GetComponent`, `Keyboard.current`, `Camera.main` and `FindGameObjectWithTag`: their results are parameters.
- The telescope's repositioning of its camera, head and light around the camera root (`TransformDirection`, `LookRotation`, offsets computed in `Start`) is rendering placement, not modelled: with a camera root, the telescope camera's own transform is left unconstrained. A transform's `forward` and `up` are not derived from its rotation. The alignment dot product is an input.
- `GravityBody.CustomGravityBody.SetCustomGravityDirection`: `CustomGravityBody.cs` has no such method, but `SeedObject.cs` calls one. The model gives the body an abstract field the setter writes and no getter reads, and adds no override semantics.
- `PlayerInteractor` derives from `Interactor` and reads `HoveredPickupable`, which neither interactor variant declares. The model takes the one in `Objects/Interaction/` as its base, and the hovered pickupable is an input of `OnPickup` and `TryPickupObject`.
- `ShiftableObject.Focus`/`Unfocus` only write to the log: not modelled.
- Shiftable.ShiftableObject.Shift: it computes an index and discards it, so it has no postcondition beyond changing nothing (its `modifies` is empty). It requires a non-empty state array because C#'s `%` by zero throws.
- LegacyInteraction.LegacyInteractor.Update: a frame in which the as-written cast throws is excluded by the precondition; that frame's behaviour is stated by `LegacyCastFrame` instead.
- LegacyInteraction.LegacyInteractor.Cast: the same precondition, that the cast does not dereference a null focus, excludes the throwing frame; `LegacyCastFrame` states what that frame does.
- Shiftable.ShiftableObject.ChangeState: it requires both indices to be in range; an out-of-range `index` makes ShiftableObject.cs:26 throw after line 25 has hidden the current root, which the model does not describe. The only caller, `Start`, passes 0 with states present.
- Shiftable.ShiftableObject.Start: without states, `ChangeState(0)` throws on its first index; the model returns at that point, with every (absent) root hidden and the index unchanged, which is what the exception leaves.
- ColorFocus.ColorFocusEffect.Start: without a base object, the renderer lookup throws before any field is assigned; the model returns with the component unchanged.
- Renderer arrays returned by `GetComponentsInChildren` are required to hold no renderer twice, which the engine guarantees.
- Behaviour of the code that the model keeps:
  - `SetGravityDirection` does not guard against the zero vector (GravityController.cs:65-70);
  - `GetGravity` normalises the direction before scaling it (GravityController.cs:62);
  - the controller's direction is not normalised until after the first transition (GravityController.cs:31-58);
  - `CustomGravityBody` always reads the controller (CustomGravityBody.cs:15-32).

## Findings

| source | as written | input that shows it | evidently intended | confidence | as-written member | corrected member |
|---|---|---|---|---|---|---|
| Protostar/Assets/Scripts/Objects/Interactor.cs:31-36 | on a focus change, `Cast` calls `Focused.Unfocus` and `newFocused.Focus` without null checks | the initial state (`Focused` null) and a ray that hits a focusable: `Unfocus` on null throws before `Focused` is assigned, so every later frame throws the same way and nothing is ever focused | null-safe calls, as in `Objects/Interaction/Interactor.cs:36-37` | not executed | LegacyInteraction.LegacyCastFrame | LegacyInteraction.CastNullSafe |
