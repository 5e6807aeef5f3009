# Rotate-and-zoom shader demo: controller model

The demo draws a static image through a fragment shader that rotates and
zooms it about its centre. Its only stateful logic is the controller in the
main loop of `shaders.py`: four variables (rotation `angle`, rotation `speed`,
`zoom` factor, integer `zoom_speed`) that each frame

1. drain the pending input events: LEFT/RIGHT change `speed` by ±0.5 while it
   is below 180 / above -180, DOWN/UP change `zoom_speed` by ±1 while it is
   below 25 / above -25, SPACE zeroes both speeds, a quit request ends the
   program, anything else is ignored;
2. add `speed` to `angle`, with no wraparound;
3. add `zoom_speed/100` to `zoom` while `zoom` is strictly inside (0.04, 100),
   and on reaching a limit zero `zoom_speed` and put `zoom` back to 0.14 or 99.9.

Before the loop, the optional command-line start speed is replaced by 0 when
it lies outside [-180, 180]. The shader replaces any sample position outside
the unit square by the corner (0, 0).

Modules:

- `Transform` (transform.dfy): the state as a value (`TransformState`), the
  event, angle and zoom steps as functions (`ApplyKey`, `Drain`, `ZoomStep`,
  `Frame`, `Run`), and the lemmas about them.
- `RenderLoop` (render_loop.dfy): class `Controller`, whose fields are the four
  variables and whose methods update them in place, as the main loop does;
  each method's postcondition equates the new state with the matching
  `Transform` function of the old state.
- `Startup` (startup.dfy): start-speed validation over a model of Python floats
  (finite, infinities, NaN).
- `Shader` (shader.dfy): the sample-position fallback.

`speed`, `angle` and `zoom` are `real` and `zoom_speed` is `int`; float rounding
is not modelled. The pending events of a frame are a parameter (a sequence of
events), and a run of the loop is a sequence of such batches.

The constant `MAX_SPEED = 180.0` (shaders.py:89) suggests that the speed
stays within [-180, 180]. But the guards at shaders.py:125 and 128 are checked
before the ±0.5 step, so a start speed off the half-degree grid can be pushed
past the limit: 179.9 becomes 180.4 (`OvershootPastMaxSpeed`). What holds for
every validated start speed is the band (-180.5, 180.5) (`SpeedInReach`); the
closed range [-180, 180] holds when the start speed is a multiple of 0.5
(`RunKeepsGridSpeed`).

## Model

| member | source | states |
|---|---|---|
| Transform.Initial | shaders.py:84-88 | the start state carries the given speed and satisfies the invariant whenever that speed is in [-180, 180] |
| Transform.ApplyKey | shaders.py:123-138 | a key press never changes angle or zoom; only LEFT/RIGHT/SPACE change speed and only DOWN/UP/SPACE change zoom_speed; SPACE zeroes both; other keys move speed by at most 0.5 and zoom_speed by at most 1; the speed band and the zoom_speed range are preserved |
| Transform.ArrowKeySteps | shaders.py:124-135 | LEFT adds exactly 0.5 iff speed < 180, RIGHT subtracts exactly 0.5 iff speed > -180, DOWN adds 1 iff zoom_speed < 25, UP subtracts 1 iff zoom_speed > -25; when the guard fails the state is unchanged |
| Transform.IgnoredEvents | shaders.py:119-138 | an unrecognised key or a non-key event changes nothing; SPACE yields speed 0 and zoom_speed 0 with angle and zoom kept |
| Transform.GuardedHalfStep | shaders.py:124-129 | a guarded ±0.5 step keeps a half-degree-grid speed on the grid and within [-180, 180] |
| Transform.ApplyKeyKeepsGridSpeed | shaders.py:123-138 | every key press keeps a half-degree-grid speed on the grid and within [-180, 180] |
| Transform.HandleEvent | shaders.py:119-138 | an event never changes angle or zoom; a non-key event changes nothing; the speed band and the zoom_speed range are preserved |
| Transform.Drain | shaders.py:119-138 | the event phase, stopping at the first quit request, never changes angle or zoom |
| Transform.DrainQuitIff | shaders.py:119-122 | the event phase reports a quit exactly when the batch holds a quit request |
| Transform.DrainAppend | shaders.py:119-138 | draining a + b is draining a and then, unless a quit was met, draining b from the resulting state |
| Transform.DrainIgnoresAfterQuit | shaders.py:119-122 | events after a quit request have no effect on the state |
| Transform.DrainKeepsSpeedBounds | shaders.py:119-138 | for every event sequence, speed stays in (-180.5, 180.5) and zoom_speed in [-25, 25] if they started there |
| Transform.DrainNeverLowersSpeed | shaders.py:124-138 | a batch with no RIGHT or SPACE press never lowers the speed |
| Transform.DrainKeepsGridSpeed | shaders.py:124-129 | for every event sequence, a start speed that is a multiple of 0.5 in [-180, 180] stays one |
| Transform.OvershootPastMaxSpeed | shaders.py:125-126 | a LEFT press from speed 179.9 gives 180.4, above the nominal maximum |
| Transform.ZoomStep | shaders.py:142-149 | for any state, the zoom ends strictly inside (0.04, 100) and angle and speed are unchanged |
| Transform.ZoomStepCases | shaders.py:142-149 | if the moved zoom is ≤ 0.04 the result is zoom 0.14, zoom_speed 0; if ≥ 100 it is zoom 99.9, zoom_speed 0; otherwise zoom is the moved value and zoom_speed is kept |
| Transform.ZoomStepAtRest | shaders.py:142-143 | with zoom_speed 0 and zoom inside its limits the zoom step changes nothing |
| Transform.ZoomStepBounded | shaders.py:142-149 | inside the limits and with zoom_speed in [-25, 25], one zoom step moves zoom by at most 0.25 |
| Transform.Frame | shaders.py:119-149 | a frame quits exactly when its event phase does; a frame that does not quit leaves the zoom strictly inside (0.04, 100) |
| Transform.Run | shaders.py:113-149 | a zoom inside (0.04, 100) stays inside across any number of frames, and a run of at least one frame that ends without a quit leaves the zoom inside whatever it was at the start |
| Transform.FrameAdvancesAngle | shaders.py:140 | a frame not ended by a quit adds the post-event speed to the angle and keeps that speed; a quit leaves the post-event state |
| Transform.FrameKeepsInv | shaders.py:119-149 | a frame preserves the invariant (speed band, zoom_speed range, zoom strictly inside its limits) |
| Transform.RunKeepsInv | shaders.py:113-149 | any number of frames preserves the invariant |
| Transform.RunKeepsGridSpeed | shaders.py:113-149 | any number of frames keeps a half-degree-grid speed within [-180, 180] |
| Transform.ReachableStates | shaders.py:84-92 | from the start values and any validated start speed, every reached state satisfies the invariant (speed band, zoom_speed in [-25, 25], zoom inside its limits) |
| Transform.RunAngleDrift | shaders.py:140 | after n frames the angle has moved by at most 180.5·n degrees |
| Transform.ThreeLeftPresses | shaders.py:124-126 | from rest, three LEFT presses and one frame give speed 1.5 and angle 1.5 |
| Transform.UpperRebound | shaders.py:147-149 | zoom 99.95 with zoom_speed 10 rebounds to zoom 99.9, zoom_speed 0 |
| Startup.StartSpeedAsWritten | shaders.py:99-105 | as written, the start speed is none exactly when the text does not convert, never an infinity, and a finite value only within [-180, 180]; NaN is not excluded |
| Startup.NaNPassesValidation | shaders.py:104-105 | as written, a NaN start speed fails both range comparisons and is kept |
| Startup.StartSpeed | shaders.py:99-105 | the start speed is 0 when no argument is given or the value is outside [-180, 180] (infinities and NaN included), the given value otherwise, and none when the text does not convert; it always lies in [-180, 180] |
| Startup.StartSpeedMatchesAsWritten | shaders.py:99-105 | the intended validation agrees with the written one on every argument except NaN |
| Startup.OutOfRangeStart | shaders.py:104-105 | a start speed of 200 or minus infinity becomes 0 |
| Shader.SamplePosition | shaders.py:65-67 | the sample position always lies in the unit square; it is the identity on points inside and maps every other point to (0, 0) |
| Shader.SamplePositionIdempotent | shaders.py:65-67 | applying the fallback twice equals applying it once |
| RenderLoop.Controller.constructor | shaders.py:84-92 | the loop starts at angle 0, zoom 1, zoom_speed 0 with the validated start speed, satisfying the invariant |
| RenderLoop.Controller.OnKey | shaders.py:123-138 | updating the fields in place yields ApplyKey of the old state and keeps the invariant |
| RenderLoop.Controller.DrainEvents | shaders.py:119-138 | the in-place event loop yields Drain of the old state, stops at the first quit request, reports a quit iff one is in the batch, and keeps the invariant |
| RenderLoop.Controller.StepZoom | shaders.py:142-149 | the in-place zoom step yields ZoomStep of the old state and leaves zoom strictly inside (0.04, 100) |
| RenderLoop.Controller.RunFrame | shaders.py:119-149 | one in-place frame yields Frame of the old state and keeps the invariant |
| RenderLoop.Controller.RunLoop | shaders.py:113-149 | the in-place loop over frames yields Run of the old state and keeps the invariant |

## Left out

- Window, OpenGL context, quad vertex buffer, shader compilation and per-frame texture upload and release (shaders.py:8-22, 72-80, 151-160): calls into graphics libraries with no logic of the program's own.
- Loading the image and compositing it onto the frame (shaders.py:109, 114-115), including the abort when the image cannot be loaded: file I/O through a library.
- The window caption (shaders.py:107, 139): cosmetic float formatting.
- The shader's rotation and scaling (`rotate2D`, `scale2D`, the unused `rotateDist2D`) and the degree-to-radian conversion (shaders.py:48-61, 64, 154): sine, cosine and GPU floating point; `Shader.SamplePosition` takes the already transformed position.
- Frame pacing at 25 frames per second, the unused frame counter `t`, and the library shutdown on a quit request (shaders.py:117, 120-122, 162): timing and process control; a quit is modelled only as ending the loop.
- Reading events from the window system: the events of each frame are a parameter.
- Conversion of the argument text to a float: the model takes the converted value, or `Unparsable` for text the conversion rejects, which aborts the program.
- Float rounding of `speed ± 0.5`, `angle + speed`, `zoom_speed/100.0` and `0.04 + 0.1`: all arithmetic is on reals.

## Findings

| source | as written | input that shows it | evidently intended | confidence | as-written member | corrected member |
|---|---|---|---|---|---|---|
| shaders.py:104-105 | the start speed is reset only when `speed < -180.0 or speed > 180.0`; both comparisons are false for NaN, so NaN is kept as the speed | start speed argument `nan` | any start speed not in [-180, 180], NaN included, becomes 0 | medium, not executed | Startup.NaNPassesValidation | Startup.StartSpeed |
