# Flight controller and chase camera of fsim, modelled in Dafny

fsim is a small browser flight game. One craft is flown from the keyboard.
Each rendered frame:

- the craft pitches and yaws by the current input axes;
- the craft banks into a turn within a roll envelope, or levels its wings when not turning;
- the craft moves forward at a fixed cruise speed;
- a chase camera eases towards a pose behind and above the craft;
- the terrain and sky are recentred on the craft;
- the ground grid's offset advances so that the ground appears to slide past.

This project models that core over exact reals and proves the properties it promises.

- `input.dfy`, module `Input`. The keyboard state machine. `InputState` holds `pitch` and `yaw`.
  `HandleKeyboardInput` applies one key edge with the same two guarded if-else chains as the source.
  It compares the raw, case-sensitive key name with `"w"`, `"s"`, `"a"` and `"d"`.
  The method is proved equal to `Apply`, a reference semantics built from a key-to-axis table.
  The properties of the state machine are proved as lemmas about `Apply` and `Run`, which applies a sequence of events.
- `vectors.dfy`, module `Vectors`. `Vec3` over `real`. `Lerp` is written as the engine computes it.
  `Dist2` is the squared distance.
- `flight.dfy`, module `Flight`. The roll-banking gate and the rotations one frame requests.
  Also the move distance and the forward translation.
  `Craft.ApplyFlightInput` updates the craft's position in place.
- `render_loop.dfy`, module `RenderLoop`. `Frame` is everything the render loop writes.
  `NextFrame` is one tick, and `Run` is a sequence of ticks.
  `Scene.Tick` is the render-loop body, updating the camera, props and grid offset in place.
  It is proved equal to `NextFrame`.

Inputs the model takes from outside:

- the elapsed frame time in milliseconds, which the engine's delta-time clock supplies;
- the roll angle read back after the pitch and yaw rotations;
- the craft's forward and up directions after this frame's rotations.

## Model

| member | source | states |
|---|---|---|
| `Input.InputState.constructor` | src/main.ts:11 | both axes start at 0 |
| `Input.InputState.HandleKeyboardInput` | src/main.ts:94-121 | the new axes are `Apply` of the old axes and the event, so the if-chains agree with the key-table semantics; an in-range state stays in range |
| `Input.BindingOf` | src/main.ts:96-119 | each bound key sets +1 or -1; exactly w and s drive pitch |
| `Input.KeyNameRoundTrip` | src/main.ts:96-119 | only the exact names "w", "s", "a", "d" are bound, each to its own key (name and key round-trip both ways); "W", "S", "A", "D" are unbound |
| `Input.PressOverwrites` | src/main.ts:96-114 | key-down w/s sets pitch to 1/-1 and a/d sets yaw to -1/1, whatever the prior value |
| `Input.ReleaseGuard` | src/main.ts:102-120 | key-up of a key clears its axis exactly when the axis holds that key's value, otherwise leaves it |
| `Input.EventFrame` | src/main.ts:94-121 | w/s events never change yaw; a/d events never change pitch; any other key name changes nothing |
| `Input.ApplyKeepsRange` | src/main.ts:94-121 | one event keeps both axes in {-1, 0, 1} |
| `Input.ApplyIdempotent` | src/main.ts:94-121 | repeating the same event has no further effect |
| `Input.RunKeepsRange` | src/main.ts:7-11 | from an in-range state, any event sequence keeps both axes in {-1, 0, 1} |
| `Input.RunAxisIsolation` | src/main.ts:94-121 | a sequence without w/s events leaves pitch as it was; one without a/d events leaves yaw as it was |
| `Input.StaleReleaseIgnored` | src/main.ts:96-107 | press w, press s, release w leaves pitch at -1 from any state |
| `Input.RunAppend` | src/main.ts:94-121 | applying events one after another composes: running xs then ys is running xs + ys |
| `Input.StaleReleaseScenario` | src/main.ts:94-121 | the same sequence through the stateful object from its initial state ends with pitch -1 and yaw 0 |
| `Flight.RollGate` | src/main.ts:132-133 | banking only with yaw input; always allowed within [-0.2, 0.2]; refused exactly when the roll is past the bound on the side of the turn (both directions stated) |
| `Flight.FlightRotations` | src/main.ts:129-138 | auto-level runs exactly when yaw is 0; a roll is applied exactly when the gate opens, so never with auto-level; pitch angle is pitch × 0.02 and yaw angle yaw × 0.02 for each axis value; a non-zero roll is yaw × 0.006, and it is ±0.006 whenever the gate opens for yaw ±1; the roll has the sign of the yaw; angles are bounded by 0.02, 0.02 and 0.006 for in-range axes |
| `Flight.MoveDistance` | src/main.ts:149-150 | distance = 50 units/s times elapsed seconds; non-negative for non-negative time |
| `Flight.Translate` | src/main.ts:148-151 | the position changes by forward times the move distance; zero elapsed time leaves it unchanged |
| `Flight.StepLength` | src/main.ts:148-151 | squared step length is the squared move distance times the squared length of forward |
| `Flight.UnitForwardStep` | src/main.ts:127-151 | with a unit forward vector the step length is speed times elapsed time (stated squared) |
| `Flight.Craft.ApplyFlightInput` | src/main.ts:123-152 | returns the rotations `FlightRotations` gives for the current axes and roll; the new position is `Translate` of the old |
| `Vectors.Lerp` | src/main.ts:71 | the result's offset from the goal is the start's offset scaled by 1 - t; t = 0 gives the start and t = 1 the goal |
| `RenderLoop.DesiredCameraPosition` | src/main.ts:65-67 | the desired camera position is 40 units behind along forward and 15 up along up from the craft |
| `RenderLoop.DesiredTarget` | src/main.ts:69 | the camera target is 50 units ahead of the craft along forward |
| `RenderLoop.NextFrame` | src/main.ts:55-84 | after a tick: terrain x/z equal the craft's, with its height kept; the skybox equals the craft's position; the camera's offset from the desired position is 0.7 of the old; camera up is world up; the grid offset grows by the craft's dx and dz, with its y kept |
| `RenderLoop.RunPlayer` | src/main.ts:148-151 | after any run the craft is at its start plus the sum of the per-frame moves |
| `RenderLoop.GridOffsetTelescopes` | src/main.ts:61-84 | after any run the grid offset is its start plus the craft's net x and z displacement; its y never changes |
| `RenderLoop.RecentredAfterRun` | src/main.ts:76-78 | after any non-empty run the terrain is under the craft and the skybox on it |
| `RenderLoop.CameraConverges` | src/main.ts:71 | with the craft stationary, the camera's offset from the desired position after n frames is 0.7^n of the first |
| `RenderLoop.CameraGapShrinks` | src/main.ts:71 | each tick multiplies the squared camera-to-desired distance by 0.49 |
| `RenderLoop.TravelRepeat` | src/main.ts:148-151 | n identical frames move n times one frame's move |
| `RenderLoop.SixtyFramesOneSecond` | src/main.ts:127-151 | 60 frames of 1000/60 ms move the craft exactly 50 units along a fixed forward vector |
| `RenderLoop.Scene.constructor` | src/main.ts:19-46 | the camera starts at (0, 5, -10) looking at the origin; terrain, skybox and grid offset start at the origin |
| `RenderLoop.Scene.Tick` | src/main.ts:55-84 | the new scene state is `NextFrame` of the old; the returned rotations are those of `FlightRotations` |

## Left out

- Quaternion and Euler maths: the local and world rotations, `toEulerAngles`, `RotationYawPitchRoll` and `Slerp` (src/main.ts:129-145). They are floating-point trigonometry inside the rendering engine. The model records which rotations a frame requests (`Flight.Rotations`). The roll angle and the post-rotation forward and up vectors are inputs.
- The roll-envelope bound and auto-level convergence of the roll angle are not proved. They depend on that quaternion maths.
- Scene, engine, camera, light, sky and terrain construction and material settings (src/main.ts:13-49). This is library setup. Only the initial positions the render loop starts from are kept.
- Loading the player asset and picking the mesh with no parent (src/main.ts:28-34). This is asynchronous I/O. The `Craft` is passed in.
- Observer registration, the render-loop driver, `scene.render()` and the resize listener (src/main.ts:51-53, 86, 89-91). This is host plumbing. Events and ticks are method calls.
- The engine's delta-time clock (src/main.ts:149) is a parameter `dtMs`.
- Floating-point rounding. All vector arithmetic is over exact `real`, so the telescoping and convergence statements are idealisations.
- Distances are stated squared (`Dist2`), since there is no square root over `real`. This applies to `Flight.StepLength`, `Flight.UnitForwardStep` and `RenderLoop.CameraGapShrinks`.
- The key names are compared as exact strings. Keyboard-layout and modifier handling of the host are not modelled.
- The model follows the code in these details:
  - the elapsed time is in milliseconds and is divided by 1000;
  - the camera starts at (0, 5, -10);
  - the grid offset is a 3-vector whose y component is never changed.
