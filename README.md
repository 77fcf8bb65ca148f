# PixelTheater web viewer: camera and web platform model

This project is a Dafny model of two parts of the PixelTheater web viewer.

The first is the orbit camera (`camera.cpp`). It is a mutable record holding:
- the camera height, distance and view angle (tilt);
- the model's pitch (X), yaw (Y) and roll (Z) rotations;
- an auto-rotate flag and speed.

Its operations clamp the distance, turn the model by mouse drags with angle wrapping, reset the rotation, advance auto-rotation by a capped frame time, and toggle auto-rotation. It also fills caller-supplied 16-entry arrays with a look-at view matrix and a model rotation matrix.

The second is the web platform header (`web_platform.h`). The model covers:
- its configuration table;
- the `ZoomLevel` enum;
- the `createWebModel` loops, which copy a compile-time model definition (LED points and pentagonal faces) into the runtime model;
- the in-class initial values of the platform's fields.

Files:
- `angles.dfy` (module `Angles`) holds the constant 2π, the reference wrap `Wrapped`, and the two wrapping loops of the camera. These are `WrapAngle`, which wraps into [0, 2π), and `ReduceAbove`, which subtracts 2π while above 2π.
- `camera.dfy` (module `Camera`) holds the `Camera` class.
  - Every state-changing method is specified against the `CameraState` snapshot of its fields. Most use a pure transition: `WithDistance`, `Dragged`, `Reset`, `AutoRotated` or `Toggled`. `SetHeight` uses an inline update of the height.
  - `CalculateViewMatrix` and `GetModelRotationMatrix` are specified by the matrix functions `ViewMatrix` and `ModelRotationMatrix`.
  - The lemmas state what the source promises about those transitions.
- `camera_matrices.dfy` (module `CameraMatrices`) holds the view and model-rotation matrices as functions over the camera's values, with lemmas on their layout. Matrices are column-major: entry `4 * col + row`.
- `web_platform.dfy` (module `WebPlatform`) holds the configuration constants, `ZoomLevel`, `CreateWebModel` and the `WebPlatform` class with its initial state.

Floats are modelled as `real`. `cos`, `sin` and `sqrt` are parameters of the operations that use them, so the matrix lemmas state the layout: which entries are fixed, which entries come from which vector, and which branch is taken.

## Model

| member | source | states |
|---|---|---|
| Angles.Wrapped | lib/PixelTheater/src/platform/webgl/camera.cpp:65-79 | reference wrap: the result lies in [0, 2π) and differs from the input by a whole number of turns |
| Angles.WrappedFixes | lib/PixelTheater/src/platform/webgl/camera.cpp:65-79 | an angle already in [0, 2π) is left unchanged by the wrap |
| Angles.WrappedIdempotent | lib/PixelTheater/src/platform/webgl/camera.cpp:65-79 | wrapping twice is wrapping once |
| Angles.WrappedShift | lib/PixelTheater/src/platform/webgl/camera.cpp:65-79 | wrapping before adding an offset does not change the wrapped sum |
| Angles.WrapAngle | lib/PixelTheater/src/platform/webgl/camera.cpp:66-71 | the add-2π-while-negative then subtract-2π-while-at-least-2π loops end in [0, 2π) at the reference wrap of the input |
| Angles.ReducedAbove | lib/PixelTheater/src/platform/webgl/camera.cpp:99-102 | reference for the auto-rotation wrap: angles ≤ 2π (negative ones too) are kept; larger ones land in (0, 2π], a whole number of turns away |
| Angles.ReduceAbove | lib/PixelTheater/src/platform/webgl/camera.cpp:100-102 | the subtract-2π-while-above-2π loop ends at most 2π, at ReducedAbove of the input |
| Camera.ClampDistance | lib/PixelTheater/src/platform/webgl/camera.cpp:37 | the clamped distance is at least 1 and at least the request, and equals one of the two |
| Camera.WithDistance | lib/PixelTheater/src/platform/webgl/camera.cpp:36-38 | the distance becomes max(1, d): a request ≥ 1 is taken as is, a smaller one gives 1; no other field changes |
| Camera.Dragged | lib/PixelTheater/src/platform/webgl/camera.cpp:48-80 | after a drag, pitch and yaw lie in [0, 2π); yaw is a whole number of turns from old yaw − deltaX; pitch is a whole number of turns from old pitch ∓ deltaY; roll and every other field are unchanged |
| Camera.DragPitchDirection | lib/PixelTheater/src/platform/webgl/camera.cpp:51-63 | pitch moves by −deltaY when the cosine of the new unwrapped yaw is positive, and by +deltaY otherwise, a cosine of exactly 0 included |
| Camera.DragRoundTrip | lib/PixelTheater/src/platform/webgl/camera.cpp:48-80 | from a wrapped camera, a horizontal drag followed by the opposite drag restores the camera exactly |
| Camera.Reset | lib/PixelTheater/src/platform/webgl/camera.cpp:82-86 | all three rotations become 0 and nothing else changes |
| Camera.CappedDelta | lib/PixelTheater/src/platform/webgl/camera.cpp:96 | the capped frame time is at most 0.1 and at most the frame time, and equals one of them |
| Camera.AutoRotationStep | lib/PixelTheater/src/platform/webgl/camera.cpp:96-97 | the yaw advance is speed × deltaTime for a frame of at most 0.1 s and speed × 0.1 for any longer frame |
| Camera.AutoRotationStepCapped | lib/PixelTheater/src/platform/webgl/camera.cpp:96-97 | with a non-negative speed, a step turns at most speed × 0.1; a non-negative frame time never turns backwards; a frame time ≤ 0.1 turns exactly speed × dt |
| Camera.AutoRotated | lib/PixelTheater/src/platform/webgl/camera.cpp:92-104 | no change when auto-rotate is off; otherwise yaw is ≤ 2π and a whole number of turns from old yaw + speed × min(dt, 0.1); only yaw changes |
| Camera.AutoRotationStaysInTurn | lib/PixelTheater/src/platform/webgl/camera.cpp:92-104 | from a yaw in [0, 2π] with non-negative speed and frame time, yaw stays in [0, 2π] |
| Camera.AutoRotationCanReachTwoPi | lib/PixelTheater/src/platform/webgl/camera.cpp:99-102 | in the real-valued model, with one 2π constant, the strict `>` test leaves a sum of exactly 2π unchanged (the float program does not, see Left out) |
| Camera.AutoRotationNegativeDelta | lib/PixelTheater/src/platform/webgl/camera.cpp:96-102 | a negative frame time is not clamped and yaw can become negative |
| Camera.Toggled | lib/PixelTheater/src/platform/webgl/camera.cpp:106-108 | the flag is negated and nothing else changes |
| Camera.ToggleTwice | lib/PixelTheater/src/platform/webgl/camera.cpp:106-108 | toggling twice restores the state |
| Camera.Camera.constructor | lib/PixelTheater/src/platform/webgl/camera.cpp:18-30 | a new camera has height 0, distance 20, no rotation, auto-rotation on at the slow speed, view angle 0, and wrapped angles |
| Camera.Camera.SetHeight | lib/PixelTheater/src/platform/webgl/camera.cpp:32-34 | only the height changes, to the given value |
| Camera.Camera.SetDistance | lib/PixelTheater/src/platform/webgl/camera.cpp:36-38 | the new state is WithDistance of the old one, so the distance is ≥ 1 |
| Camera.Camera.SetCameraDistance | lib/PixelTheater/src/platform/webgl/camera.cpp:40-42 | the alias has exactly the effect of SetDistance |
| Camera.Camera.CalculateTilt | lib/PixelTheater/src/platform/webgl/camera.cpp:44-46 | the tilt is the view angle |
| Camera.Camera.UpdateModelRotation | lib/PixelTheater/src/platform/webgl/camera.cpp:48-80 | the new state is Dragged of the old one, so pitch and yaw are in [0, 2π) |
| Camera.Camera.ResetModelRotation | lib/PixelTheater/src/platform/webgl/camera.cpp:82-86 | the new state is Reset of the old one |
| Camera.Camera.ResetRotation | lib/PixelTheater/src/platform/webgl/camera.cpp:88-90 | the alias has exactly the effect of ResetModelRotation |
| Camera.Camera.UpdateAutoRotation | lib/PixelTheater/src/platform/webgl/camera.cpp:92-104 | the new state is AutoRotated of the old one |
| Camera.Camera.ToggleAutoRotation | lib/PixelTheater/src/platform/webgl/camera.cpp:106-108 | the new state is Toggled of the old one |
| Camera.Camera.CalculateViewMatrix | lib/PixelTheater/src/platform/webgl/camera.cpp:110-209 | the array holds ViewMatrix of the camera's distance and view angle |
| Camera.Camera.GetModelRotationMatrix | lib/PixelTheater/src/platform/webgl/camera.cpp:211-249 | the array holds ModelRotationMatrix of the camera's yaw and pitch |
| Camera.ApplyPitch | lib/PixelTheater/src/platform/webgl/camera.cpp:232-247 | entries 4-11 are rewritten as the pitch mix of a copy of the array; the other entries keep their values |
| CameraMatrices.IdentityIsDiagonal | lib/PixelTheater/src/platform/webgl/camera.cpp:112-114 | the `i % 5 == 0` loop writes exactly the 4x4 identity |
| CameraMatrices.LookAt | lib/PixelTheater/src/platform/webgl/camera.cpp:188-208 | the look-at layout has 16 entries: columns 0-2 hold right, up and −forward, column 3 holds the negated eye products |
| CameraMatrices.ViewMatrix | lib/PixelTheater/src/platform/webgl/camera.cpp:116-208 | the view matrix is the look-at layout of the eye, forward, right and up vectors; it has 16 entries |
| CameraMatrices.ViewMatrixFixedEntries | lib/PixelTheater/src/platform/webgl/camera.cpp:189-208 | entries 3, 7 and 11 are 0, entry 15 is 1, and entries 8-10 are minus the forward vector |
| CameraMatrices.ViewRightAlongX | lib/PixelTheater/src/platform/webgl/camera.cpp:122-181 | the eye has no x part, so forward.x is 0, the right vector lies along world X in both branches, and entries 1, 2, 8 and 12 are 0 |
| CameraMatrices.ViewMatrixOverhead | lib/PixelTheater/src/platform/webgl/camera.cpp:150-186 | with sin(tilt) > 0.99, entries 0-2 are exactly (1, 0, 0) and entries 4-6 are (0, −forward.z, forward.y) |
| CameraMatrices.ViewMatrixStandard | lib/PixelTheater/src/platform/webgl/camera.cpp:163-181 | with sin(tilt) ≤ 0.99, entries 0-2 are the normalised cross product of forward with world up |
| CameraMatrices.RotationY | lib/PixelTheater/src/platform/webgl/camera.cpp:221-225 | the yaw rotation written over the identity has 16 entries and is the identity for cos 1, sin 0 |
| CameraMatrices.PitchMix | lib/PixelTheater/src/platform/webgl/camera.cpp:239-247 | the pitch mix of a 16-entry matrix has 16 entries |
| CameraMatrices.ModelRotationMatrix | lib/PixelTheater/src/platform/webgl/camera.cpp:211-248 | the model matrix is the yaw rotation, mixed by the pitch unless the pitch is exactly 0; it has 16 entries |
| CameraMatrices.YawOverIdentity | lib/PixelTheater/src/platform/webgl/camera.cpp:213-225 | writing entries 0, 2, 8 and 10 over the identity gives the rotation about Y |
| CameraMatrices.ModelRotationFixedColumns | lib/PixelTheater/src/platform/webgl/camera.cpp:217-248 | whatever the pitch, entries 0-3 are (cos yaw, 0, −sin yaw, 0) and entries 12-15 are (0, 0, 0, 1) |
| CameraMatrices.ModelRotationYawOnly | lib/PixelTheater/src/platform/webgl/camera.cpp:221-228 | a pitch of exactly 0 gives the pure yaw rotation |
| CameraMatrices.YawPitch | lib/PixelTheater/src/platform/webgl/camera.cpp:228-248 | closed form of yaw followed by pitch; it has 16 entries |
| CameraMatrices.PitchMixOfYaw | lib/PixelTheater/src/platform/webgl/camera.cpp:232-247 | the pitch mix of the yaw rotation is the closed form |
| CameraMatrices.MulYawPitch | lib/PixelTheater/src/platform/webgl/camera.cpp:228-248 | the product of the yaw and pitch rotation matrices is the same closed form |
| CameraMatrices.ModelRotationPitched | lib/PixelTheater/src/platform/webgl/camera.cpp:228-248 | any non-zero pitch gives the closed form: columns 1 and 2 are the cos/sin mixes of the yaw matrix's columns |
| CameraMatrices.ModelRotationIsYawThenPitch | lib/PixelTheater/src/platform/webgl/camera.cpp:211-248 | the model matrix is the yaw rotation times the pitch rotation; at pitch 0 this needs cos 0 = 1 and sin 0 = 0 |
| WebPlatform.DefaultsWithinRanges | lib/PixelTheater/include/PixelTheater/platform/web_platform.h:41-48 | the default LED size and atmosphere intensity lie in their declared ranges |
| WebPlatform.CameraPresetsOrdered | lib/PixelTheater/include/PixelTheater/platform/web_platform.h:53-58 | near plane < close < normal < far < far plane |
| WebPlatform.ShaderBoundsConsistent | lib/PixelTheater/include/PixelTheater/platform/web_platform.h:68-70 | 0 < minimum depth fade < maximum depth fade, and the minimum LED brightness is positive |
| WebPlatform.ZoomOrdinal | lib/PixelTheater/include/PixelTheater/platform/web_platform.h:28-32 | each zoom level's underlying value is below 3 |
| WebPlatform.ZoomFromOrdinal | lib/PixelTheater/include/PixelTheater/platform/web_platform.h:28-32 | an integer names a zoom level exactly when it is 0, 1 or 2 |
| WebPlatform.ZoomOrdinalRoundTrip | lib/PixelTheater/include/PixelTheater/platform/web_platform.h:28-32 | level to value to level, and value to level to value, are both the identity |
| WebPlatform.CreateWebModel | lib/PixelTheater/include/PixelTheater/platform/web_platform.h:82-113 | metadata name, version and LED count are copied; there are LED_COUNT positions with the coordinates of the points, in order, so num_leds is the number of positions; there are FACE_COUNT faces of exactly five vertices, each with the coordinates of the definition's vertex |
| WebPlatform.WebPlatform.constructor | lib/PixelTheater/include/PixelTheater/platform/web_platform.h:209-265 | a new platform has every GL handle 0, no LED buffer, 0 LEDs, no stored LED positions, a mesh index count of 0, default brightness, LED size, atmosphere and spacing, mesh shown at 0.3 opacity, auto-rotation off at the default speed, no drag, an 800×600 canvas, 60 fps and dither 1 |

## Left out

- Trigonometry and square roots are parameters (`cos`, `sin`, `sqrt` as `real -> real`). So unit length, orthonormality and NaN-freedom of the matrices are not stated.
- Floats are modelled as `real`. Rounding is not modelled, and neither is a float wrap loop that stops making progress at huge magnitudes. The float and double copies of 2π (camera.cpp lines 67 and 100) are one constant, `Angles.TwoPi`. The `0.7f`-style constants are their decimal values.
- `SLOW_ROTATION_SPEED` is declared in `camera.h`, which is not part of this model. It is the constructor's parameter.
- The distance presets 7/20/30 and the camera Y offset 5 at the top of camera.cpp are never used in the file. They are not modelled.
- The matrix routines write their final entries through `Camera.Store`, one entry per index in order. The source writes them as separate statements. The array contents at the end are the same.
- `Camera.Camera.CalculateViewMatrix` groups the source's scalar arithmetic into the vector helpers `Eye`, `Normalized`, `ViewForward`, `ViewRight`, `Cross` and `Dot`. In the looking-down branch the source writes up = (0, 0, 1) and never reads it. In the other branch up = (0, 1, 0) only feeds the cross product. `ViewRight` covers both branches.
- Read from camera.cpp:189-208, not run: the 3×3 block of the view matrix is the transpose of the usual look-at rotation, whose rows are right, up and −forward. The translation column (entries 12-14) is the usual one. The model states the layout as written.
- `WebPlatform.CreateWebModel` requires `WellFormed`:
  - both counts are at most 65535, because the `uint16_t` loop counters would otherwise never reach them;
  - the point and face tables are at least as long as the counts;
  - each face definition has at least five vertices.
  The definition types live in headers that are not part of this model, so a point is modelled by its coordinates only.
- The body of the `WebPlatform` constructor lives in a source file that is not part of this model. Only the in-class initial values are modelled. The `unique_ptr` members (renderer, mesh generator, camera) and the stored LED positions beyond their initial emptiness are left out.
- Everything of the platform that is only declared in the header is left out, because no body is available. This covers rendering, WebGL setup and teardown, the mouse, wheel and resize handlers, `setZoomLevel`, `setAutoRotation`, the settings setters, timing, random numbers, logging and the settings store. No mapping from `ZoomLevel` to a distance is stated for the same reason.
- `updateAutoRotation` does not wrap from below, so a negative frame time can leave yaw negative (camera.cpp:96-102). Only drags and resets bring the rotation angles into [0, 2π).
- The pitch flips whenever the cosine of the new yaw is not positive, a cosine of exactly 0 included (camera.cpp:63). The cosine is taken of the yaw after subtracting deltaX and before wrapping (camera.cpp:51-58).
- Camera.AutoRotationCanReachTwoPi: the program compares a float yaw against the double `2.0f * M_PI` (camera.cpp:100), which lies just below float 2π. So the program's loop never ends at 2π: from a yaw in [0, 2π) with a non-negative step, it stays below 2π. The model merges the two constants into one real `TwoPi`. That makes a yaw of exactly 2π reachable in the model, and the lemma shows this for the model only.
