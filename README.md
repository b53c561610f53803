# Highway scene animation: a verified model

The program renders a night highway scene with OpenGL. The scene is seen from a camera beside the road. In every iteration of its render loop it does the following, in this order:

- reads the clock and computes the frame time;
- steps the two conveyor speeds while UP or DOWN is held;
- keeps the camera above a floor height;
- colours the two headlights of car 3 by the high beam and the blinking turn signals;
- moves four cars back and forth, each between two bounds;
- slides the road, trees, buildings, poles, lamps, grass and terrain along the x axis, snapping each group back once it reaches its threshold, so that the scene seems to scroll forever;
- runs five Gaussian blur passes over two ping-pong framebuffers for the bloom effect;
- polls key events, whose callback flips the scene's flags.

This project models that state and its updates in Dafny:

- `motion.dfy` (module `Motion`): the car oscillators and the looping conveyors, as pure functions, with lemmas about them.
- `controls.dfy` (module `Controls`): the speed keys and the toggle keys, with GLFW's integer key and action codes.
- `lights.dfy` (module `Lights`): the headlight colours, including C++'s truncating float-to-int conversion and its `%` on signed integers.
- `bloom.dfy` (module `Bloom`): the blur loop as a `method` with a `while` loop. It records which buffer each pass writes and which texture it reads.
- `scene.dfy` (module `Scene`): class `SceneState`, which holds the mutable state of the frame. Its methods are written in the source's step-by-step form: `Frame`, `KeyCallback`, `PollEvents` and `RenderLoop`. The module also gives the whole state as a value, `World`. The pure functions `FrameStep` (one iteration) and `Run` (a run of iterations) say what an iteration does to it. Read as a `World` through `SceneState.State()`, the object's state changes as follows. `FrameAndPoll` is proved to take it to `FrameStep` of the old state, and `RenderLoop` to `Run` of the start state. `Frame`, `Prepare` and `Animate` are proved against `FrameOnly`, `PrepareStep` and `AnimateStep`. `PollEvents` is proved to set the flags to `ApplyKeys` and leave the rest of the state as it was. The per-block methods (`Tick`, `ProcessSpeedKeys`, `ClampCamera`, `UpdateHeadlights`, `MoveCars`, `MoveBelts` and `KeyCallback`) state the new values of the fields they change.

Positions, speeds and times are `real`, so single-precision rounding is not modelled. The clock reading, the camera height after keyboard movement, and the sine that sways car 4 are inputs of each frame (`Scene.FrameInput`).

## Model

| member | source | states |
|---|---|---|
| Motion.OscillatorStep | src/main.cpp:605-613 | for a proper range, the car after one frame has its flag turned at its bounds: heading up at or below the lower bound, down at or above the upper one |
| Motion.OscillatorMoveThenGuards | src/main.cpp:599-655 | a car moves down by 5·dt when its flag is set and up by 3·dt otherwise; afterwards the flag is cleared at or below the lower bound, set at or above the upper bound, and kept strictly inside |
| Motion.OvershootIsNotClamped | src/main.cpp:605-613 | a long frame carries car 1 from 16 to 19, past its bound 17; the position is not clamped, only the direction turns |
| Motion.OscillatorStaysInEnvelope | src/main.cpp:599-655 | with frame times at most maxDt, a car never gets more than one frame's travel past either bound, and once past a bound it heads back |
| Motion.OscillatorRoundTrip | src/main.cpp:599-655 | from its lower bound a car reaches its upper bound in (upper−lower)/3 s and turns; it returns in (upper−lower)/5 s and turns again |
| Motion.CarsStartInside | src/main.cpp:82-88 | each car starts strictly inside its own range, and so with its flag turned at its bounds (the start positions together with the flags at src/main.cpp:453-456) |
| Motion.CarsStep | src/main.cpp:599-655 | after one frame, each of the four cars has its flag turned at the bounds of its own range, whatever the frame time |
| Motion.ConveyorStep | src/main.cpp:662-667 | after a frame a group is either at its reset value or at its advanced position; it is below the threshold whenever reset is; it stays at the advanced position whenever that is below the threshold |
| Motion.ConveyorFrozen | src/main.cpp:662-667 | with motion off, a group below its threshold stays where it is |
| Motion.ConveyorForwardOrReset | src/main.cpp:662-667 | at a non-negative speed a group only moves forward, except when it snaps back to its reset value |
| Motion.RoadScenario | src/main.cpp:662-667 | at speed 7 from −80, the road is at −52 after 4 s; after 31/7 s it reaches −49 and snaps back to −80 |
| Motion.BeltsStep | src/main.cpp:662-861 | after every frame, every one of the nine groups is strictly below its threshold |
| Motion.BeltsStartBelowThreshold | src/main.cpp:79-111 | all nine groups start below their thresholds |
| Motion.BeltsFrozen | src/main.cpp:662-861 | with motion off, a frame leaves all nine groups where they are |
| Motion.ConveyorRunTravel | src/main.cpp:662-667 | until it reaches its threshold, a group's position after any run of non-decreasing frames equals its start position plus speed × elapsed time, however the time is split into frames (with the helper MonotoneEnd: the last reading of such a run is not before the first) |
| Motion.TiledGroupsSeamless | src/main.cpp:670-840 | for the road, trees, buildings, poles, lamps and grass, the distance from reset to threshold is exactly one tile stride |
| Motion.WrapShiftsOneTile | src/main.cpp:662-676 | in a seamless group, copy i drawn at the threshold sits exactly where copy i + 1 is drawn after the snap back to the reset, for every i below count − 1; only the last copy (index count − 1) disappears, and a new copy 0 appears one stride behind |
| Controls.SpeedKeys | src/main.cpp:977-993 | one frame of the speed keys keeps both speeds within their clamps, and so positive; with neither key held, the speeds are unchanged |
| Controls.Held | src/main.cpp:977-993 | holding the same keys for n frames keeps speeds that start in range within range, and with neither key held leaves them unchanged |
| Controls.InitialSpeedsInRange | src/main.cpp:162-163 | the initial speeds 7 and 4.5 lie within the clamps |
| Controls.HoldingUp | src/main.cpp:977-984 | holding UP for n frames gives min(speed + n/2, cap) for both speeds |
| Controls.HoldingDown | src/main.cpp:985-993 | holding DOWN for n frames gives max(speed − n/2, floor) for both speeds |
| Controls.HoldingBoth | src/main.cpp:977-993 | holding both keys leaves a speed unchanged, except within half a unit of its cap, where it ends half a unit below the cap |
| Controls.ApplyKey | src/main.cpp:1087-1127 | an event that is not a press, or a press of an unbound key, leaves every flag as it was |
| Controls.ApplyKeys | src/main.cpp:1087-1127 | a run of events containing no press leaves every flag as it was |
| Controls.ApplyKeyTwice | src/main.cpp:1087-1127 | the same key event delivered twice restores every flag |
| Controls.ApplyKeyChanges | src/main.cpp:1087-1127 | a key event changes the flags if and only if it is a press of B, LEFT, RIGHT, M, Q, H or F1 |
| Controls.ApplyKeyMotion | src/main.cpp:1100-1102 | the motion flag changes if and only if the event is a press of M |
| Controls.ApplyKeysKeepsMotion | src/main.cpp:1100-1102 | a run of events without a press of M leaves the motion flag as it was |
| Lights.TruncateToInt | src/main.cpp:535 | `int(t)` drops the fraction toward zero: for t ≥ 0 it is the non-negative n with n ≤ t < n+1, and for t < 0 the non-positive n with n−1 < t ≤ n |
| Lights.CRemainder | src/main.cpp:535 | C++ `%` by a positive divisor: the remainder has the sign of the dividend, is smaller than the divisor in magnitude, and differs from the dividend by a multiple of the divisor |
| Lights.CRemainderParity | src/main.cpp:534-551 | `n % 2` in C++ is non-zero exactly when n is odd, negative n included |
| Lights.SignalLit | src/main.cpp:535 | the signal is lit when the whole part of the clock is odd; for non-negative times this is floor(t) mod 2 = 1 |
| Lights.HeadlightFor | src/main.cpp:524-561 | the ambient is the high-beam colour if and only if the high beam is on, and otherwise the low-beam (1,1,1); the diffuse and specular are amber if and only if the signal is on and lit, and otherwise the diffuse and specular are the plain colours |
| Lights.StrobeScenario | src/main.cpp:534-546 | a signal that is on is lit at 1.9 s and dark at 2.1 s |
| Lights.StrobeBySecond | src/main.cpp:534-561 | over non-negative time, a signal is lit during second k exactly when k is odd, and one second later the light is inverted |
| Bloom.BlurSchedule | src/main.cpp:896-921 | pass i writes ping-pong buffer 1 on even passes and 0 on odd ones, with the matching direction; the first pass samples the scene's bright attachment and every later pass samples the buffer its predecessor wrote; no pass samples its own target; the composite samples the last target, which is buffer 1 for five passes |
| Scene.StepCar | src/main.cpp:605-613 | one car's block, run imperatively, equals the oscillator step |
| Scene.StepBelt | src/main.cpp:662-667 | one conveyor's block, run imperatively, equals the conveyor step |
| Scene.ClampedHeight | src/main.cpp:472-473 | the height after the floor clamp is at least 1.5; it equals the input when the input is at least 1.5, and is exactly 1.5 otherwise |
| Scene.PrepareStep | src/main.cpp:463-561 | the first part of a frame keeps speeds that are in range within range, lifts the camera to at least 1.5, and leaves the flags, cars, sway and conveyors alone |
| Scene.AnimateStep | src/main.cpp:599-861 | the second part of a frame keeps every car turned at its bounds and every group below its threshold; with motion off it changes nothing |
| Scene.FrameOnly | src/main.cpp:460-923 | one frame up to the event poll keeps the whole state valid (speeds in range, cars turned at their bounds, groups below their thresholds) and keeps the flags |
| Scene.FrameStep | src/main.cpp:460-936 | one full iteration, the frame followed by the key events, keeps the whole state valid |
| Scene.Run | src/main.cpp:460-936 | any run of iterations keeps the whole state valid |
| Scene.RunEnds | src/main.cpp:463-473 | after a non-empty run the clock holds the last frame's reading and the camera is at or above 1.5 |
| Scene.RunFrozen | src/main.cpp:599-1102 | a scene that starts paused and gets no press of M stays paused, and no car, no sway and no conveyor changes, however many frames pass |
| Scene.SceneState.constructor | src/main.cpp:67-111 | the initial state (the start positions are at these lines; the clock's start value is at src/main.cpp:42-43, the speeds at 162-163, the headlight colours at 347-365 and the car flags at 453-456): the clock is 0, the speeds are 7 and 4.5, every flag is off, the headlights are low beam, and the cars and groups are at their start positions; the state is valid |
| Scene.SceneState.Tick | src/main.cpp:463-465 | the delta is the time since the previous frame's reading, and the reading is stored |
| Scene.SceneState.ProcessSpeedKeys | src/main.cpp:977-993 | the new speeds are the speed-key step of the old ones |
| Scene.SceneState.ClampCamera | src/main.cpp:472-473 | the camera ends at or above 1.5; it is unchanged when already there, and raised to exactly 1.5 otherwise |
| Scene.SceneState.UpdateHeadlights | src/main.cpp:524-561 | each headlight gets the high- or low-beam ambient; it is amber while its signal is on and the whole second is odd, and plain otherwise |
| Scene.SceneState.MoveCars | src/main.cpp:599-655 | with motion on, all four cars take one oscillator step and car 4's sway is set; with motion off, nothing changes |
| Scene.SceneState.MoveBelts | src/main.cpp:662-861 | all nine groups take one conveyor step, with the building speed used for the buildings |
| Scene.SceneState.Prepare | src/main.cpp:463-561 | the clock, speed-key, camera-clamp and headlight blocks, run in order, take the whole state to PrepareStep of the old state; the camera is exactly 1.5 when the input height is below 1.5 |
| Scene.SceneState.Animate | src/main.cpp:599-861 | the car and conveyor blocks, run in order, take the whole state to AnimateStep of the old state |
| Scene.SceneState.Frame | src/main.cpp:460-923 | one iteration up to the event poll takes the whole state to FrameOnly of the old state, so it stays valid and the flags are kept. The composite samples scene attachment 0 and ping-pong buffer 1, with the bloom flag and exposure 0.5 |
| Scene.SceneState.KeyCallback | src/main.cpp:1087-1127 | the callback's nine guarded flips, with H flipping three times, amount to one application of the key event to the flags |
| Scene.SceneState.PollEvents | src/main.cpp:1087-1127 | the flags after the poll are the events applied in order, and nothing else changes; without a press of M the motion flag is kept |
| Scene.SceneState.FrameAndPoll | src/main.cpp:460-936 | one full iteration takes the whole state to FrameStep of the old state: new clock, speeds, camera, headlights, cars, sway and conveyors, then the flags after the events; the state stays valid |
| Scene.SceneState.RenderLoop | src/main.cpp:460-937 | after any run of frames the whole state is Run of the initial state over those frames, and it stays valid; after a non-empty run the clock holds the last reading and the camera is above the floor; a scene that starts paused and gets no press of M never moves |

## Left out

- Rendering: all OpenGL, GLFW and ImGui calls, shaders, model loading and matrix set-up are left out. The model keeps only the state those calls read, and the bloom passes as buffer indices.
- Skybox: loading the cubemap faces from files each frame is left out. The skybox flag is kept as a toggle.
- Camera class: `Camera::ProcessKeyboard` (W, A, S, D, SPACE, CTRL) and the mouse callbacks are not part of this model. The camera height after them is an input of each frame, and only the floor clamp is modelled.
- `sin(1.2·t)/2`: the sideways sway of car 4 is an input, because trigonometry has no model here.
- `glfwGetTime`: the clock is an input. RenderLoop does not require the readings to be monotone. ConveyorRunTravel does.
- `ProgramState::SaveToFile` and `LoadFromFile` are file I/O and are not modelled. The program calls `LoadFromFile` before the loop starts (src/main.cpp:208). That call overwrites the GUI flag and the camera position, so the constructor's `gui == false` and camera height 0 are the struct defaults, not the values the loop starts from.
- Positions of the headlight spotlights, the lamp spotlight list, y and z coordinates, and scales are constants or uploads to shaders, and are not modelled. Car 4's z is modelled because the frame writes it.
- Float precision: `float` arithmetic is modelled as exact `real` arithmetic. Single-precision rounding, for example in −48.6 or in sums of `speed * deltaTime`, is not captured.
- Lights.TruncateToInt: does not model the undefined behaviour of converting a float outside the `int` range.
- Terrain tiling: the two terrain tiles are two separate positions, not a stride loop, so they are not covered by WrapShiftsOneTile.
- Scene.SceneState.RenderLoop: the window-close test and ESC are left out; the loop runs over a given finite sequence of frames.
- Scene.SceneState: the seven flags are one record-valued field, `toggles`, instead of seven boolean fields. The key callback still flips them in place, one guarded statement per key.
- Scene.SceneState: the cars and the nine scrolling groups are kept as two sequences rather than as named fields. Their order follows the order of the frame's blocks.

The signal blinks on odd values of `int(currentFrame) % 2`, which truncates toward zero. For the non-negative times GLFW reports, this equals floor(t) mod 2 (Lights.SignalLit).
