# djo_game: per-tick gameplay model

This project models the per-tick logic of a small first-person exploration game written in C++ on raylib. Each frame, `Game::run` calls `processEvents` and then `updateBall`. The model covers:

- the Escape key, which toggles between Playing and Paused;
- in the Playing state:
  - the crouch, sprint and creative-mode toggles;
  - the smoothed speed multiplier;
  - walking and flying movement with the map boundary at ±497.5;
  - kicking the ball;
  - gravity, jumping, and snapping to or sliding along the terrain;
  - the elevator keys in creative mode;
  - manual mouse look with the pitch clamped to ±89;
  - pushing the player out of trees;
- in the Paused state: the resume and exit buttons, and the sensitivity slider;
- the ball's flight, its bounce off the terrain and its bounce off the walls at ±495.

It also models the free-look `Camera` class of `src/Camera.cpp`: keyboard walking on the horizontal plane, and mouse look with a clamped pitch.

The model is written in four modules:

- `Geometry` (geometry.dfy): vectors, rectangles and the raymath/raylib helpers the game calls. These are Lerp, Clamp, Vector3Normalize, Vector2Normalize, Vector3Reflect, the cross product and CheckCollisionPointRec. Every length takes the square root as a parameter `sqrt`. Lemmas that need the parameter to be a genuine square root require `IsRoot(sqrt)`.
- `Terrain` (terrain.dfy): the downward ray cast onto the map. It is an arbitrary function from (x, z) to a collision record. The model keeps the game's fallbacks, height 0 and normal (0, 1, 0), for when the ray misses.
- `CameraInput` (camera.dfy): the `Camera` class, with `ProcessKeyboard` and `ProcessMouse` as methods on its fields.
- `Gameplay` (gameplay.dfy): the `Game` class, which holds the fields `processEvents` and `updateBall` update in place.
  - Each block of those functions is a small method over values, with its own contract (for example `MoveCandidate`, `ResolveGround`, `PushOutOfTrees`, `DragSlider`, `WallBounce`).
  - The class methods call these blocks in source order.
  - The tree loop is a `for` loop. It is proved against the fold `TreePushes`.

All numbers are `real`. The trigonometry that turns yaw and pitch into a direction is a parameter: `Env.spherical` for the game, and `spherical` for `Camera.ProcessMouse`. The same holds for the square root and the terrain ray cast. Keyboard and mouse state arrive once per frame in an `Input` value.

Three behaviours of src/Game.cpp matter for the contracts:

- The ±497.5 clamp happens when the next position is committed (src/Game.cpp:298-307). It is not a bound at the end of the tick, because the slope slide (src/Game.cpp:369) runs later. A walker on the limit who slides down a steep slope whose normal points outwards ends past it (`Gameplay.SlopeSlideCanLeaveMap`). The tree push (src/Game.cpp:420-422) also runs later. For the trees setupResources places (src/Game.cpp:204-211), it never carries the player off the map (`Gameplay.PlacedScenesKeepPlayerOnMap`). Only a tree placed near the edge, which setupResources never builds, could do so (`Gameplay.TreePushCanLeaveMap`).
- A tree's blocking radius is `2 * scale.x / 10` (src/Game.cpp:418). No player radius is added, so a pushed player ends exactly on that radius (`Gameplay.TreePushReachesRadius`).
- Crouching beats sprinting in the speed target, because of the assignment order (src/Game.cpp:268-269).

## Model

| member | source | states |
|---|---|---|
| Geometry.Cross | src/Game.cpp:289 | the right vector is perpendicular to both forward and up |
| Geometry.Normalize | src/Game.cpp:279-285 | a vector with y = 0 keeps y = 0 after normalizing, so the flattened forward stays flat; the zero vector is returned unchanged |
| Geometry.NormalizeIsUnit | src/Camera.cpp:11-12 | normalizing a non-zero vector gives unit length |
| Geometry.Lerp | src/Game.cpp:272 | the result equals start at 0 and end at 1, and for an amount in [0, 1] it lies between start and end (both orders) |
| Geometry.Clamp | src/Game.cpp:446 | the result lies in [lo, hi]; a value already inside is unchanged |
| Geometry.ClampPitch | src/Camera.cpp:27-28 | the pitch ends in [-89, 89]; a pitch inside is kept exactly; one outside saturates at the nearer limit |
| Geometry.Normalize2 | src/Game.cpp:420 | the result is parallel to the input and never points against it; a vector whose length is not positive becomes zero |
| Geometry.Reflect | src/Game.cpp:69 | for a unit normal, the velocity's component along the normal is reversed |
| Geometry.PointInRect | src/Game.cpp:431-440 | a point can only be inside a rectangle of positive width and height |
| Geometry.ReflectTwice | src/Game.cpp:69 | reflecting twice in a unit normal gives back the original velocity |
| Geometry.ReflectKeepsLength | src/Game.cpp:69 | a bounce off a unit normal keeps the speed |
| Terrain.HeightAt | src/Game.cpp:34-42 | the hit point's height when the ray hits, 0 when it misses |
| Terrain.NormalAt | src/Game.cpp:44-50 | the hit normal when the ray hits, (0, 1, 0) when it misses |
| CameraInput.FlatFront | src/Camera.cpp:11 | the movement front has no vertical component |
| CameraInput.RightOf | src/Camera.cpp:12 | with a vertical up vector, the strafe vector has no vertical component |
| CameraInput.KeyboardStep | src/Camera.cpp:7-17 | a keyboard step never changes the height; a direction other than W, S, A, D leaves the position unchanged |
| CameraInput.ForwardThenBack | src/Camera.cpp:14-15 | W followed by S with the same front and deltaTime returns to the start |
| CameraInput.LeftThenRight | src/Camera.cpp:16-17 | A followed by D with the same front and deltaTime returns to the start |
| CameraInput.StepLength | src/Camera.cpp:8-17 | unless the camera looks straight up or down, a step covers exactly speed * deltaTime, whatever the pitch |
| CameraInput.Camera.constructor | include/Camera.hpp:8-27 | the member defaults: position (0, 0, 3), front (0, 0, -1), yaw -90, pitch 0, speed 5.5, grounded, not crouching |
| CameraInput.Camera.ProcessKeyboard | src/Camera.cpp:7-21 | the new position is the keyboard step from the old one; the height is unchanged; yaw, pitch, front and isCrouching are outside its frame |
| CameraInput.Camera.ProcessMouse | src/Camera.cpp:23-31 | yaw gains exactly xoffset; pitch is the clamped old pitch + yoffset and lies in [-89, 89]; front is recomputed from yaw and pitch |
| CameraInput.Camera.UpdateCameraVectors | src/Camera.cpp:33-39 | front is the normalized direction for the current yaw and pitch |
| CameraInput.WalkForwardAndBack | src/Camera.cpp:14-15 | a caller that walks W then S leaves the camera's position, front, yaw and pitch as they were |
| Gameplay.ToggledState | src/Game.cpp:245-253 | Escape always changes the state |
| Gameplay.ToggleTwice | src/Game.cpp:245-253 | two Escape presses restore the original state |
| Gameplay.AfterEscape | src/Game.cpp:245-253 | the state changes exactly when Escape was pressed |
| Gameplay.TargetMultiplier | src/Game.cpp:266-269 | target 0.4 whenever crouching, 1.7 when only sprinting, 1.0 otherwise; always in [0.4, 1.7] |
| Gameplay.SpeedTargets | src/Game.cpp:265-269 | base speed 90 when flying, 7 when walking; the two sequential assignments give exactly TargetMultiplier |
| Gameplay.SmoothedMultiplierStaysInRange | src/Game.cpp:266-272 | with a smoothing amount in [0, 1], the multiplier stays between 0.4 and 1.7 once it is there |
| Gameplay.MovementBasis | src/Game.cpp:279-289 | flying moves along the look direction; walking moves along its flattened, normalized form with y = 0; right is perpendicular to forward and up, and horizontal for a vertical up |
| Gameplay.MoveCandidate | src/Game.cpp:292-295 | the last held key in the order W, S, A, D decides the whole move, each measured from the current position; no key, no move; a flat basis keeps the height |
| Gameplay.ClampToMap | src/Game.cpp:298-303 | the coordinate ends in [-497.5, 497.5]; inside, it is unchanged; outside, it saturates |
| Gameplay.Committed | src/Game.cpp:306-312 | a next position inside the ±497.5 clamp commits a camera on the map; walking never changes the height at the commit; when the next position has the kept height, or when flying, the camera lands exactly on it |
| Gameplay.KickForceAsWritten | src/Game.cpp:318 | the force as written measures the zero vector whenever walking keeps the height or the player flies |
| Gameplay.KickForce | src/Game.cpp:318 | the corrected force is 100 times the distance between the positions before and after the move, in either order |
| Gameplay.KickForceAsWrittenIsZero | src/Game.cpp:318 | the kick force as written is always zero whenever walking keeps the height, which MoveAndCommit guarantees, or when flying |
| Gameplay.KickForceMeasuresMove | src/Game.cpp:318-321 | the corrected force is non-negative and zero exactly when the player did not move |
| Gameplay.KickBall | src/Game.cpp:315-322 | a ball beyond radius + 1.5 is untouched; a nearer one gains force + 5 along the player-to-ball direction and never towards the player; position, radius and restitution are kept |
| Gameplay.PushIsAway | src/Game.cpp:317-321 | a push along the normalized player-to-ball direction has a non-negative component along that direction |
| Gameplay.Jump | src/Game.cpp:347-350 | a jump sets velocity 8 and clears grounded only when grounded; otherwise both are untouched |
| Gameplay.ResolveGround | src/Game.cpp:353-377 | grounded exactly when in the snap zone (not rising, within 0.25 of the floor) on a slope with normal.y >= 0.65, then y = floorY and velocity 0; a steep slope slides along the normal, clears grounded and leaves y >= floorY; outside the snap zone the position is kept and grounded cleared |
| Gameplay.Slide | src/Game.cpp:366-372 | the slide moves x and z by the normal's horizontal part times 10 * deltaTime; the height is kept unless it would be below the floor, where it becomes floor + 0.05; it never ends below the floor |
| Gameplay.InSnapZone | src/Game.cpp:357 | the snap zone is entered only when not moving up: a rising player is never in it, and a player at rest on or below the floor always is |
| Gameplay.Fallen | src/Game.cpp:340-342 | gravity changes only an airborne player's velocity, and lowers it |
| Gameplay.Stepped | src/Game.cpp:340-344 | the vertical step never moves x or z; a grounded player at rest stays put; an airborne player who is not rising always descends |
| Gameplay.LaunchVelocity | src/Game.cpp:340-350 | a grounded jump gives an upward velocity; a grounded player who does not jump keeps the velocity; in the air gravity always lowers it |
| Gameplay.SpaceIgnoredInAir | src/Game.cpp:347-350 | Space has no effect on an airborne player's velocity |
| Gameplay.JumpLeavesSnapZone | src/Game.cpp:347-355 | after a grounded jump the player is never in the snap zone, so the ground check cannot cancel the jump |
| Gameplay.WalkingStep | src/Game.cpp:340-377 | the new position, velocity and grounded flag in all three cases of the ground check: the stepped position when airborne, snapped to the floor on a gentle slope, the Slide of it on a steep one; grounded implies a gentle slope and zero velocity; a grounded jump leaves the ground with velocity 8; airborne, gravity pulls 18 * deltaTime; standing still on gentle ground at the floor stays put |
| Gameplay.CreativeVertical | src/Game.cpp:381-385 | space raises and control lowers by the step; the result is never below the floor |
| Gameplay.TreeRadius | src/Game.cpp:418 | a tree's blocking radius is 2 to 6 for the scales 10 to 30 that setupResources draws |
| Gameplay.TreeDistance | src/Game.cpp:417 | the ground-plane distance between player and trunk ignores height, is symmetric in the two points, and is never negative |
| Gameplay.TreePush | src/Game.cpp:416-423 | a tree never changes the height; a player outside the radius, or exactly on the trunk, is not moved |
| Gameplay.Collide | src/Game.cpp:416 | only trees move the player, and never in height |
| Gameplay.TreePushes | src/Game.cpp:415-425 | applying all objects in order never changes the height |
| Gameplay.NoTreesNoPush | src/Game.cpp:415-416 | a scene without trees leaves the player where they are |
| Gameplay.TreePushReachesRadius | src/Game.cpp:417-422 | a player strictly inside a tree's radius, off the trunk, ends exactly on the radius |
| Gameplay.TreePushCanLeaveMap | src/Game.cpp:417-422 | the push itself ignores the map limit: a tree half a unit inside the limit, which setupResources never builds, would push a player on the limit out to x = 499 |
| Gameplay.PushStaysNearTrunk | src/Game.cpp:417-422 | a pushed player ends within the tree's radius of its trunk on each axis |
| Gameplay.PlacedScenesKeepPlayerOnMap | src/Game.cpp:204-211 | for trees placed as setupResources places them (x in [-474, -100], z in [100, 474], scale 10 to 30), the tree loop keeps a player on the map |
| Gameplay.SlopeSlideCanLeaveMap | src/Game.cpp:366-372 | a walker who slides down a steep slope from x = 497.5, with the normal pointing outwards, ends past the map limit |
| Gameplay.PushOutOfTrees | src/Game.cpp:415-425 | the loop's result is the in-order fold of the objects' pushes, and the height is unchanged |
| Gameplay.DragSlider | src/Game.cpp:446-452 | the slider value lies in [0, 1] and names the mouse's place along the track (0 left of it, 1 right of it); sensitivity is its point between 0.01 and 0.2 and lies in that range |
| Gameplay.HandleFor | src/Game.cpp:545-546 | the handle keeps its size and is centred on the slider value's point of the track, vertically on the track's centre |
| Gameplay.Fly | src/Game.cpp:53-60 | gravity 15 on the vertical velocity, then damping 0.995, then one position step with the new velocity; the horizontal speed never grows, and it strictly shrinks when it is not zero; the horizontal direction is kept |
| Gameplay.GroundBounce | src/Game.cpp:62-73 | a ball below the terrain is lifted to rest on it and its velocity becomes the reflection scaled by the restitution; its speed squared shrinks by restitution squared for a unit normal; a ball above the terrain is untouched; afterwards it is never below the terrain |
| Gameplay.WallBounce | src/Game.cpp:75-84 | the coordinate ends in [-495, 495]; past the wall it is put on the wall and the velocity along that axis is multiplied by -restitution; otherwise both are unchanged |
| Gameplay.Game.constructor | src/Game.cpp:18-30 | camera at (490, 50, 490) looking at the origin, yaw -135, pitch -15, Playing; the ball at (480, 300, 480) at rest with radius 1 and restitution 0.8; the handle placed by the slider value; the invariant holds |
| Gameplay.Game.HandleEscape | src/Game.cpp:245-253 | the state after the escape check |
| Gameplay.Game.ApplyToggles | src/Game.cpp:257-262 | C, left shift and G each flip their flag; G also zeroes the vertical velocity |
| Gameplay.Game.UpdateSpeed | src/Game.cpp:265-273 | the multiplier eases towards its target at rate 12 * deltaTime; the speed is base speed times multiplier |
| Gameplay.Game.MoveAndCommit | src/Game.cpp:276-312 | the committed x and z lie in [-497.5, 497.5]; y changes only when flying; no key held inside the map means no move |
| Gameplay.Game.KickTheBall | src/Game.cpp:315-322 | the kick of KickBall with the corrected force; the ball is never pulled towards the player |
| Gameplay.Game.EaseEyeHeight | src/Game.cpp:328-334 | the eye height eases towards 0.8 or 1.5, and the camera height moves by exactly the change |
| Gameplay.Game.VerticalMotion | src/Game.cpp:336-389 | flying: the elevator step, clamped to the floor, with grounded set and zero velocity; walking: the new position, velocity and grounded flag in each case of the ground check (airborne, snapped, slid) |
| Gameplay.Game.UpdatePhysics | src/Game.cpp:325-389 | the eye height eases towards 0.8 or 1.5 and carries the camera with it; flying: the elevator step, clamped to the floor, with grounded set and zero velocity; walking: the new position, velocity and grounded flag in each case of the ground check (airborne, snapped, slid), so grounded implies a gentle slope, y = floorY and zero velocity, a steep slope never grounds, a grounded jump leaves the ground at velocity 8 and a fall gains gravity |
| Gameplay.Game.MouseLook | src/Game.cpp:392-412 | yaw gains dx * sensitivity; pitch is the clamped old pitch - dy * sensitivity; the target is the position plus the look direction |
| Gameplay.Game.ResolveTreeCollisions | src/Game.cpp:415-425 | the position is the in-order fold of the tree pushes, with its height kept |
| Gameplay.Game.MoveTick | src/Game.cpp:257-389 | the toggles' effect; the speed multiplier and eye height ease towards the targets of the new flags; flying always ends grounded with zero velocity; grounded walking ends with zero velocity; the ball keeps its position, radius and restitution |
| Gameplay.Game.PlayingTick | src/Game.cpp:255-425 | the invariant is kept; the toggles, the speed multiplier and eye height, the flying and grounded facts, and the yaw and pitch updates |
| Gameplay.Game.PausedTick | src/Game.cpp:427-453 | exit exactly on a click inside the exit button; otherwise a click on resume resumes; dragging starts on a handle click and stops on release; while dragging, the slider follows the mouse within the track and sets the sensitivity; otherwise slider and sensitivity are unchanged |
| Gameplay.Game.ProcessEvents | src/Game.cpp:243-455 | when the escape check leaves Playing: ends Playing, never exits, and applies the toggles, speed multiplier, eye height and look angles of the Playing branch while keeping the drag state; when it leaves Paused: processEvents does not touch the player's position, flags, speed multiplier, eye height, vertical velocity, look angles or ball, exit happens exactly on an exit click, resume exactly on a resume click; unless it exits, dragging starts on a click on the slider handle and stops on a release, and while dragging the slider follows the mouse across the track (0 at or left of it, 1 at or right of it) and the sensitivity is the matching point between the minimum and maximum; when not dragging, or on exit, slider and sensitivity keep their values; the invariant (slider, sensitivity range, pitch range) is kept |
| Gameplay.Game.UpdateBall | src/Game.cpp:52-85 | after the update the ball lies within ±495 in x and z; its radius and restitution are unchanged |
| Gameplay.Game.PlaceSliderHandle | src/Game.cpp:545-546 | the handle is centred on the slider value's point of the track |
| Gameplay.Game.Frame | src/Game.cpp:460-546 | a frame that does not exit leaves the ball inside the walls; a Paused frame centres the handle on the slider value and a Playing frame leaves it where it was; the invariant is kept |

## Findings

| source | as written | input that shows it | evidently intended | confidence | as-written member | corrected member |
|---|---|---|---|---|---|---|
| src/Game.cpp:318 | `kickForce` is the length of `camera.position - nextPos`. It is measured after lines 306-312 have copied nextPos's x and z into the camera, and its y too when flying. | The player walks into the ball at any speed. The camera already equals nextPos in all three coordinates, so `kickForce` is 0 and the ball always gains exactly 5. | The force grows with the player's movement this tick (the comment at src/Game.cpp:320), measured from where the player stood before the move. | not executed; high: walking keeps the height (`Gameplay.Game.MoveAndCommit`), so the difference is the zero vector on every tick | Gameplay.KickForceAsWrittenIsZero | Gameplay.KickForceMeasuresMove |

The as-written force is `Gameplay.KickForceAsWritten`. The corrected force is `Gameplay.KickForce`, and `Gameplay.Game.KickTheBall` uses that one.

## Left out

- Rendering: the drawing half of `Game::run`, `Camera::getViewMatrix` (src/Camera.cpp:3-5), src/Buildings.cpp and `GameObject::getModelMatrix`. None of them changes game state, except the handle update of Paused frames (src/Game.cpp:516, 545-546), which `PlaceSliderHandle` models and `Frame` calls only in a Paused frame.
- `setupUI`'s layout arithmetic from the screen size. The rectangles come in as a `Layout`, and only a positive track width is required.
- `setupResources`: asset loading, shaders and the random placement of trees and fences. The scene objects are a constructor parameter, and the predicate `Gameplay.PlacedAsBuilt` holds the ranges that the random tree placement draws from. The ball's initial state (src/Game.cpp:147-150) is modelled.
- `GetRayCollisionMesh`: the whole downward ray cast is the parameter `Env.cast`. No mesh or triangle test is modelled.
- Square root and trigonometry are parameters. Float rounding, NaN and infinity do not exist over the reals.
- Normalizing a zero vector: raymath returns it unchanged, and the model does the same. `glm::normalize` in src/Camera.cpp yields NaN for a zero vector, for example for a front set from outside with zero x and z. The pitch clamp keeps `processMouse` itself from producing one. The model uses the raymath behaviour in both files.
- Window, cursor and input plumbing: EnableCursor/DisableCursor, GetMouseDelta, IsKeyPressed and the others. Their per-frame values are the `Input` datatype.
- `exit(0)` at src/Game.cpp:438 becomes the `exited` result of `PausedTick`, `ProcessEvents` and `Frame`. Nothing runs after it.
- Default values: the raylib-era fields of `Game` are not declared in any header here, because include/Game.hpp belongs to an SFML variant. These start values are therefore chosen:
  - sensitivity 0.1, taken from that header;
  - not crouching, sprinting, flying, dragging or grounded;
  - speed multiplier 1.0;
  - vertical velocity 0;
  - eye height 1.5.

  The start value of the slider is a constructor parameter.
- Gameplay.DragSlider: requires a positive track width. At width 0, src/Game.cpp:449 divides by zero, and reals cannot express the result. setupUI always makes the track 15% of the screen width.
- Gameplay.Game.MoveAndCommit: does not repeat which key decided the move. That is stated by `MoveCandidate`, which this method calls on the flattened basis of `MovementBasis`.
- Gameplay.Game.PlayingTick: states the toggles, the speed multiplier, the eye height, the grounded and velocity facts, and the look angles only. The position, the kick and the tree results are stated by the phase methods it calls (`MoveAndCommit`, `KickTheBall`, `UpdatePhysics`, `ResolveTreeCollisions`).
- Gameplay.Game.MoveTick: does not state the new position or the kicked ball velocity. They depend on the clamped next position that `MoveAndCommit` returns and `KickTheBall` and `UpdatePhysics` consume, which the method does not expose. Those three methods state them.
- Gameplay.Game.ProcessEvents: in the Playing case, does not state the position, the look target or the ball velocity, and states the grounded flag and the vertical velocity only for flying. The look target is set from the position before the tree loop moves it, a value the method does not expose. `PlayingTick` and the phase methods it calls state the rest (`MouseLook` the target).
- Gameplay.Game.KickTheBall: uses the corrected force `KickForce`, measured from the position before the move, instead of the always-zero force of src/Game.cpp:318. So this method and `MoveTick`, `PlayingTick`, `ProcessEvents` and `Frame`, which call it, model the program with the kick fixed: a kick adds force + 5, where the code as written always adds exactly 5. The code as written is `KickForceAsWritten`, and `KickForceAsWrittenIsZero` proves it is zero (see "## Findings").
- Gameplay.Game.Frame: states the ball's wall bound, the handle and the invariant only. The rest of the new state is stated by `ProcessEvents` and `UpdateBall`.
- Gameplay.Game.UpdateBall: states the wall bound and the kept radius and restitution only. The flight, ground bounce and wall bounce are stated by `Fly`, `GroundBounce` and `WallBounce`.
- Input arrives as one value per frame, so the two GetMousePosition calls of the Paused branch read the same position.
