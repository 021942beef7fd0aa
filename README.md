# Helix cubes demo, modelled in Dafny

The page shows 10000 small cubes that spin, rise and drift around a slowly
turning camera, lit by a bobbing point light. A god-rays post process is drawn
over them, and a five-position menu carousel turns the camera when it rotates.
This project models the core of that demo in Dafny and proves properties of
the model:

- **the cube buffer** (`cubes-simulation.js`, `createCubesGeometry`): five flat
  attribute arrays filled by `addTriangle`, twelve triangles per cube, with the
  random values of each cube drawn from `Math.random()`, which is modelled as a
  supplied stream of samples;
- **the frame update** (`render`): the clock, the shader age and the camera
  angle;
- **the passes a frame draws**: the background's draw-range handling, the
  god-rays pass order with its render targets, and `resize` with
  `setupRenderTargets`;
- **the shader arithmetic** (`effects.js`): the quaternion helpers, the cube
  and background vertex transforms, the Gouraud lighting, the 20-sample
  god-rays loop, the additive combine, the two 9-tap blurs and the default
  uniform values;
- **the menu** (`menu.js`):
  - the padding loop that clones the elements until there are five;
  - the position indices and the left and right rotations;
  - the CSS placement classes;
  - the click, key and swipe handlers;
  - the per-frame `update` of the list of camera-rotation processes;
  - `CameraRotationProcess` with its `UnitBezier` easing curve.

Files, one module each:

| file | module | contents |
|---|---|---|
| `numeric.dfy` | `Numeric` | vectors; JavaScript's truncating `%` and GLSL's `mod` and `clamp` over the reals; `sin`/`cos`/`sqrt` as a record of functions with the laws the proofs use; `Math.random()` as a `RandomStream` class |
| `geometry.dfy` | `CubesGeometry` | the `BufferGeometry` class over five `array<real>`, `addTriangle`, the cube-building loop and its specification on a triangle-by-triangle view |
| `effects.dfy` | `Effects` | the shaders as functions over `real`; the god-rays loop and the blurs' `sum +=` chains as methods |
| `simulation.dfy` | `Simulation` | the `CubesSimulation` class: the frame clock, the background and god-rays renders recorded as a log of render calls, the render-target sizes |
| `menu.dfy` | `Menu` | the padding loop, the indices and placements, the `MenuMovement` and `CameraRotationProcess` classes |

Renderer calls are recorded, not executed. Each `renderer.render` or
`clearTarget` appends a `RenderCall` to the simulation's `log`. A clear
records its target and the clear colour in force. A render call records:

- the program drawn;
- the textures it samples;
- the target it writes;
- the clear colour in force;
- whether it forces a clear;
- the draw range of the cube buffer.

The pass-order properties are stated about that log.

## Model

| member | source | states |
|---|---|---|
| Numeric.JsRem | cubes-simulation.js:76 | JavaScript's `%` on reals: the result lies strictly between -m and m, has the sign of the dividend, differs from the dividend by a whole multiple of m (`Congruent`), and is the dividend itself when that already lies in (-m, m) |
| Numeric.GlslMod | effects.js:65 | GLSL `mod(x, y)` for y > 0 lies in [0, y), differs from x by a whole multiple of y (`Congruent`), and leaves x in [0, y) unchanged |
| Numeric.RandomStream.Next | cubes-simulation.js:288 | one call of `Math.random()` returns the next supplied sample and advances the stream by one |
| CubesGeometry.BufferGeometry.constructor | cubes-simulation.js:273-277 | the five arrays are fresh, zero-filled and sized 9, 9, 9, 12, 12 floats per triangle; the draw range is everything |
| CubesGeometry.SetVertices3 | cubes-simulation.js:343-353 | nine stores `a[j+0..j+8]` write three 3-component vertices in order and nothing else |
| CubesGeometry.SetVertices4 | cubes-simulation.js:386-399 | twelve stores `a[l+0..l+11]` write three 4-component vertices in order and nothing else |
| CubesGeometry.PutSlots | cubes-simulation.js:343-414 | storing v from index j fills exactly `[j, j+|v|)` with v and leaves every other index alone |
| CubesGeometry.BufferGeometry.AddTriangle | cubes-simulation.js:337-415 | triangle k becomes positions (va, vb, vc), the face normal three times, rv1 three times, rv2 and rv3 three times each; every other triangle keeps its contents |
| CubesGeometry.StoreTriangleHere | cubes-simulation.js:340-414 | after `addTriangle(k, ...)` the slots `[9k, 9k+9)` and `[12k, 12k+12)` hold exactly that triangle's data |
| CubesGeometry.StoreTriangleElsewhere | cubes-simulation.js:340-341 | the slots of every other triangle j != k are untouched: the ranges `9k` and `12k` of two triangles never overlap |
| CubesGeometry.StoreTriangleSlots | cubes-simulation.js:337-415 | on the triangle view, `addTriangle(k, ...)` is an update of entry k only |
| CubesGeometry.BufferGeometry.AddCube | cubes-simulation.js:296-312 | the twelve `addTriangle` calls of one cube leave the buffer as `PlaceCube`: faces i..i+11 of that cube, in call order, and the rest untouched |
| CubesGeometry.PlaceCubeSlot | cubes-simulation.js:296-312 | after the first t calls for the cube at i, triangle k is face k-i of the cube when i <= k < i+t, and unchanged otherwise |
| CubesGeometry.RandomUnitVectorIsUnit | cubes-simulation.js:315-326 | `setRandomUnitVector` yields a vector of length exactly 1 whenever its z sample lies in [0, 1) |
| CubesGeometry.NormallyDistributedRandom | cubes-simulation.js:328-335 | the loop consumes four samples and returns the quarter of the sum of `u*delta - delta/2` over them |
| CubesGeometry.NormallyDistributedBounds | cubes-simulation.js:328-335 | `normallyDistributedRandom(-1, 1)` on samples in [0, 1) lies in [-1, 1) |
| CubesGeometry.DrawCubeRandoms | cubes-simulation.js:287-294 | one cube draws 19 samples in source order: azimuth and z for rv1, three samples and a normal value for rv2, two coins and two normal values for rv3 |
| CubesGeometry.InstanceRanges | cubes-simulation.js:287-294 | for samples in [0, 1): the axis is a unit vector; random1.xyz lie in [0, 1); random1.w, random2.z and random2.w lie in [-1, 1); random2.x and random2.y are exactly 1 or -1 |
| CubesGeometry.CubeVerticesShareRandoms | cubes-simulation.js:374-414 | all three vertices of every face of a cube carry the same colour, random1 and random2 |
| CubesGeometry.AddRandomCube | cubes-simulation.js:287-312 | one turn of the loop draws the next cube's 19 samples and places its twelve faces at triangle i |
| CubesGeometry.FillCubes | cubes-simulation.js:286-313 | the loop draws the cubes' samples in order and leaves the buffer as `PlaceCubes` of those cubes |
| CubesGeometry.PlaceCubesSlots | cubes-simulation.js:286-313 | after the loop, triangle k holds face `k % 12` of cube `k / 12`, for every k |
| CubesGeometry.CreateCubesGeometry | cubes-simulation.js:255-424 | a fresh geometry of 12 * numCubes triangles; 19 samples consumed per cube; every triangle holds its cube's face built from those samples; draw range everything |
| Effects.IdentityRotation | effects.js:8-24 | `rotateVectorByQuaternion` with (0, 0, 0, 1) leaves every vector unchanged |
| Effects.ZeroAngleQuaternion | effects.js:26-37 | `axisAngleToQuaternion(axis, 0)` is the identity quaternion for every axis |
| Effects.CubeUnrotatedAtAgeZero | effects.js:55-57 | at fAge 0 the cube spin is the identity, so the cube and background normals are the built ones |
| Effects.SweepY | effects.js:64-66 | the swept height lies in [y - 60, y + 60): the `mod` keeps the offset within the 120-unit band |
| Effects.CubeHeightRange | effects.js:61-82 | a cube vertex's height lies within 60 + 9.5 of its spun height when random1.w lies in [-1, 1) |
| Effects.BackgroundRanges | effects.js:211-226 | a background vertex sweeps the same band, and its depth lies in [-180, -120) |
| Effects.DirectionalLight | effects.js:96-98 | the directional term is non-negative and is zero for a normal that does not face up |
| Effects.PointLightFactor | effects.js:101-105 | the attenuation lies in [0, 1] and is 0 from 65 units on |
| Effects.PointLightNonNegative | effects.js:100-106 | a point light of non-negative colour never darkens a vertex |
| Effects.CubeDiffuseNonNegative | effects.js:88-106 | the ambient, directional and point terms add up to a non-negative colour |
| Effects.DefaultLightingNonNegative | effects.js:108-121 | with the default `cPointLightColor` (0.349, 1, 1) the cube lighting is non-negative |
| Effects.SampleCoordClosedForm | effects.js:311-314 | after n steps of `coord -= delta` the sample is n deltas from the fragment |
| Effects.FinalSampleCoord | effects.js:306-314 | the 20th sample sits at `vUv - (vUv - light) * density`, a density fraction of the way to the light |
| Effects.RaySumNonNegative | effects.js:313-321 | with a non-negative texture, decay and weight, the accumulated colour is non-negative |
| Effects.TotalWeightClosedForm | effects.js:308-320 | the sum of the n weights `decay^i * weight` satisfies the geometric-series identity `(1 - decay) S = weight (1 - decay^n)` |
| Effects.RaySumOfUniformTexture | effects.js:313-321 | on a uniformly coloured texture the loop returns that colour times the total weight |
| Effects.Clamp4 | effects.js:323 | `clamp` puts every component in [lo, hi] and leaves a colour already inside unchanged |
| Effects.GodRays | effects.js:303-324 | the fragment colour lies componentwise in [0, fClamp] |
| Effects.GodRaysFragment | effects.js:303-324 | the 20-iteration loop computes exactly `GodRays`, so its result lies in [0, fClamp] |
| Effects.DefaultFinalSampleCoord | effects.js:256-281 | under the default uniforms (density 0.8, light at (0.5, 0.5)) the last sample sits 0.8 of the way to the light |
| Effects.AdditiveCases | effects.js:357-360 | coefficient 0 gives the diffuse texel; the default coefficient 1 gives the plain sum; a zero add texel leaves the diffuse texel |
| Effects.KernelShape | effects.js:391-399 | the nine weights are symmetric about the centre tap and add up to exactly 1 |
| Effects.HorizontalBlur | effects.js:389-400 | the nine `sum +=` steps compute the weighted sum of the nine taps `fH` apart along x |
| Effects.VerticalBlur | effects.js:430-443 | the nine `sum +=` steps compute the weighted sum of the nine taps `fV` apart along y |
| Effects.HorizontalTaps | effects.js:391-399 | tap k of the horizontal blur samples `(vUv.x + (k-4) fH, vUv.y)` |
| Effects.VerticalTaps | effects.js:433-441 | tap k of the vertical blur samples `(vUv.x, vUv.y + (k-4) fV)` |
| Effects.BlurOfUniformImage | effects.js:389-443 | either blur of a uniformly coloured image returns that colour |
| Simulation.TurnCamera | cubes-simulation.js:76 | the new camera angle lies strictly between -2pi and 2pi; it has the sign of the unwrapped angle, which it equals when that is already inside |
| Simulation.RunTelescopes | cubes-simulation.js:68-76 | over any run of frames, `totalSeconds` and `fAge` grow by exactly (last timestamp - first previous timestamp) / 1000, and the camera angle stays within (-2pi, 2pi) |
| Simulation.CubesSimulation.AdvanceClock | cubes-simulation.js:69-76 | one frame's clock update is `Tick` of the old clock |
| Simulation.CubesSimulation.Render | cubes-simulation.js:68-92 | one frame: the clock ticks; with god rays the log grows by the god-rays frame, the light disc, point light and light position move, and the post-process textures are bound; without them the log grows by the direct frame (cubes, then the background) and the light and bindings stay; the background age follows the cube age exactly when the background is on; the draw range is the one the background leaves; the speed, switches, blur steps and target sizes are untouched |
| Simulation.DirectFrameSchedule | cubes-simulation.js:81-90 | without god rays every pass goes to the screen, samples nothing, is not cleared to black, and the cube scene comes first |
| Simulation.CubesSimulation.BackgroundRender | cubes-simulation.js:113-122 | the background copies the cube age, draws the first 36 * 60 vertices, then resets the draw range to the whole buffer |
| Simulation.CubesSimulation.Draw | cubes-simulation.js:184 | `renderer.render` appends one pass with the program's current texture bindings, the clear colour in force and the current draw range |
| Simulation.CubesSimulation.MoveLight | cubes-simulation.js:169-177 | the light disc moves to height `sin(0.3 t) * 50`; the point light follows it in y and takes the light colour; the god-rays light is the projected disc mapped to [0, 1] |
| Simulation.LightDiscHeight | cubes-simulation.js:170 | the light disc stays between heights -50 and 50 |
| Simulation.LightUvInUnitSquare | cubes-simulation.js:176-177 | a projected light position inside the view maps into [0, 1]^2 |
| Simulation.CubesSimulation.RenderCubeImage | cubes-simulation.js:180-184 | diffuseRT is cleared; the background is drawn into it when enabled; then the cube scene is drawn into it |
| Simulation.CubesSimulation.RenderOcclusion | cubes-simulation.js:186-189 | the occlusion scene is drawn into RT1 over a forced black clear, and the clear colour is restored |
| Simulation.CubesSimulation.Blur | cubes-simulation.js:191-206 | horizontal, vertical, horizontal, vertical, ping-ponging RT1 -> RT2 -> RT1 -> RT2 -> RT1 |
| Simulation.CubesSimulation.RaysAndCombine | cubes-simulation.js:208-217 | god rays go from RT1 into RT2; then diffuseRT plus RT2 are drawn to the screen |
| Simulation.CubesSimulation.RenderPasses | cubes-simulation.js:179-217 | the passes of `godRays.render` are the cube image followed by the post process, in that order |
| Simulation.CubesSimulation.GodRaysRender | cubes-simulation.js:168-218 | the light moves, the log grows by exactly the god-rays frame, and the post-process textures end bound to the targets they read |
| Simulation.CubeImageSchedule | cubes-simulation.js:179-184 | the cube image samples nothing, first clears diffuseRT with the normal clear colour, clears nothing to black, and ends with the cube scene in diffuseRT using the range the background left |
| Simulation.PostProcessSchedule | cubes-simulation.js:186-217 | only the occlusion pass clears to black; each blur and ray pass samples what the pass before wrote; no pass samples its own target; the last pass draws diffuseRT + RT2 to the screen |
| Simulation.GodRaysFrameSchedule | cubes-simulation.js:168-217 | in a whole god-rays frame no pass samples the target it draws into, and exactly the occlusion pass uses the black clear colour; the clear of diffuseRT does not |
| Simulation.Reduced | cubes-simulation.js:232-233 | `w >> 1` on a non-negative width is half the width, rounded down |
| Simulation.NoMinimumTargetSize | cubes-simulation.js:228-233 | a container one pixel wide or less yields god-rays targets of width 0 |
| Simulation.BlurStepFor | cubes-simulation.js:161-163 | `3 / offset`: positive infinity for a zero size, otherwise the step times the size is 3 |
| Simulation.CubesSimulation.Resize | cubes-simulation.js:160-165 | fH and fV become 3 / width and 3 / height of the container; diffuseRT takes the full size and both god-rays targets the halved size (`setupRenderTargets`, lines 222-234); nothing else changes |
| Simulation.SetupScene | cubes-simulation.js:43 | the cube buffer is built with 12 * 10000 triangles and a full draw range, consuming 19 samples per cube |
| Simulation.DrawScene | cubes-simulation.js:33-65 | the start-up draws the camera angle from the first sample (times 2pi), then builds the cubes, then draws `totalSeconds` from the next sample (times 60) |
| Simulation.CubesSimulation.constructor | cubes-simulation.js:3-66 | the start-up state: random camera angle and clock, an empty log, both effects enabled, default age and speed, targets and blur steps sized to the container |
| Menu.PadElements | menu.js:15-22 | the cloning loop returns `Padded(elements)` |
| Menu.PaddedShape | menu.js:13-22 | the padded list has at least 5 elements; a list of 5 or more is unchanged; a shorter one ends with fewer than 10; the originals come first, and every later element is a clone of the one `|elements|` before it |
| Menu.NumberElements | menu.js:24-28 | element i gets index i, so the indices are a permutation of 0..n-1 |
| Menu.TruncatedRem | menu.js:112 | JavaScript's `%` on a non-negative dividend lies in [0, m) |
| Menu.RightIndexInRange | menu.js:112 | on indices 0..n-1, `(index + 1) % count` steps up with the last wrapping to 0 |
| Menu.RotatedLeftPermutation | menu.js:92-102 | the left rotation keeps the indices a permutation of 0..n-1 |
| Menu.RotatedRightPermutation | menu.js:107-114 | the right rotation keeps the indices a permutation of 0..n-1 |
| Menu.RotationsInverse | menu.js:92-114 | rotating left then right, or right then left, restores every index |
| Menu.MenuMovement.RotateLeft | menu.js:92-105 | each index steps down with 0 wrapping to the last; the classes are reassigned; one fresh process turning by +pi/4 over 0.4 s is pushed |
| Menu.MenuMovement.RotateRight | menu.js:107-117 | each index steps up modulo the count; the classes are reassigned; one fresh process turning by -pi/4 over 0.4 s is pushed |
| Menu.MenuMovement.AssignClasses | menu.js:119-149 | every element gets the placement its index selects: 0 left, 1 center, 2 right, 3 right-out, the last index left-out, otherwise none |
| Menu.EachPlacementOnce | menu.js:119-149 | with 5 or more elements whose indices are a permutation, each of the five classes sits on exactly one element |
| Menu.ClickCentres | menu.js:30-38 | the rotation a click on the left or right element triggers brings that element to the centre |
| Menu.MenuMovement.Click | menu.js:30-38 | unless transitions are disabled, a click on index 0 rotates right, on index 2 rotates left, and on any other index does nothing |
| Menu.MenuMovement.KeyDown | menu.js:42-49 | unless transitions are disabled, key 37 rotates right, key 39 rotates left, and any other key does nothing |
| Menu.MenuMovement.Swipe | menu.js:54-61 | unless transitions are disabled, a left swipe rotates left and a right swipe rotates right |
| Menu.MenuMovement.Update | menu.js:75-90 | every process advances by (timestamp - previous) / 1000; the finished ones leave the list in order; the page-wide flag is set exactly when processes remain |
| Menu.MenuMovement.AdvanceProcesses | menu.js:79-85 | the backward loop advances every process once; the list keeps exactly the unfinished ones; the camera turns by the total change in reported progress |
| Menu.MenuMovement.AdvanceAt | menu.js:80-84 | one turn advances process i, splices it out if finished, and keeps the camera total in step |
| Menu.UnfinishedMembers | menu.js:79-85 | a process stays on the list exactly when it is not finished |
| Menu.UnfinishedValid | menu.js:79-85 | removing the finished processes keeps the list free of repeats |
| Menu.MenuMovement.constructor | menu.js:8-66 | the elements are padded, numbered 0..n-1 and given their classes; no process runs; no transition is in progress |
| Menu.CameraRotationProcess.constructor | menu.js:151-157 | a new process is unfinished, with no time elapsed and no progress |
| Menu.CameraRotationProcess.Update | menu.js:159-171 | one `update` is `Advance` of the old state, and the camera turns by the new progress minus the old |
| Menu.TurnedTelescopes | menu.js:159-170 | over any run of updates the camera turns by exactly the final reported progress minus the initial one |
| Menu.ElapsedAccumulates | menu.js:160 | the elapsed time is the initial time plus the sum of the frame times |
| Menu.FinishedOnceElapsed | menu.js:160-163 | a process is finished after a run exactly when it was finished before or some prefix of the run reached `seconds` |
| Menu.ProgressAtEnd | menu.js:165-167 | an update landing exactly on `seconds` reports the whole amount |
| Menu.FullTurnOnTime | menu.js:159-170 | when the frame times add up to exactly `seconds`, the process turns the camera by exactly `amount` |
| Menu.OverlongFrameTurnsShort | menu.js:159-170 | one 0.5 s frame on a 0.4 s process turns the camera by 0.8046875 * amount, not by amount: the age is not clamped at 1 |
| Menu.LeftRotationCanTurnBackwards | menu.js:159-170 | a left rotation (+pi/4) whose only update comes 0.7 s after it started turns the camera by -1.2359375 * pi/4, a negative amount |
| Menu.Lerp | menu.js:173-175 | `lerp(v0, v1, 0)` is v0 and `lerp(v0, v1, 1)` is v1 |
| Menu.MakeUnitBezier | menu.js:181-191 | the x and y coefficients each add up to 1 |
| Menu.CurveEndpoints | menu.js:181-195 | every unit Bezier curve has y(0) = 0 and y(1) = 1 |
| Menu.MenuCurveCoefficients | menu.js:157 | the menu curve `UnitBezier(0.25, 0.1, 0.25, 1)` is y(t) = -1.7 t^3 + 2.4 t^2 + 0.3 t |
| Menu.MenuCurveInUnitRange | menu.js:157 | on [0, 1] the menu curve stays within [0, 1] |
| Menu.MenuCurveMonotone | menu.js:157 | on [0, 1] the menu curve never decreases |

## Behaviour of the code as written

The model follows the code. Some properties one might expect of the demo do
not hold in it:

- The camera angle is wrapped with JavaScript's `%`, which keeps the sign of
  the dividend. It stays in (-2pi, 2pi), not in [0, 2pi). It becomes negative
  through the menu's right rotations, and also through a left rotation whose
  age overshoots far enough that the curve goes below 0: see
  `LeftRotationCanTurnBackwards`.
- The frame time is not clamped, and `fAge` is never wrapped. The god-rays
  targets have no minimum size: a container 1 pixel wide gets targets 0
  pixels wide.
- `fH` and `fV` are 3 over the container's size, not over the halved size of
  the god-rays targets.
- Without god rays, the cube scene is drawn first and the background second.
- The Firefox gate reads the page-wide `self.transitionInProgress` that
  `update` sets. The local `transitionInProgress` at menu.js:9 is never read.
  The model keeps one flag, the page-wide one.
- Clicks and arrow keys turn the opposite way from their names, while swipes
  do not:
  - a click on the left element (index 0) rotates the indices right;
  - key 37 (left arrow) rotates right and key 39 (right arrow) rotates left;
  - a left swipe rotates left and a right swipe rotates right.
- A camera-rotation process does not clamp its age at 1. Its total turn is
  `amount * y(final age)`. This equals `amount` only when the frame times
  land exactly on 0.4 s: see `FullTurnOnTime` and `OverlongFrameTurnsShort`.
- With no `.menu-element` in the container the padding loop at menu.js:15-22
  never ends: the inner loop clones nothing and the count stays 0.
  `Menu.Padded`, `Menu.PadElements` and the `MenuMovement` constructor
  therefore require at least one element.

## Left out

- controls.js (the dat.GUI controls) is not part of this model.
- The WebGL renderer, scenes, meshes, materials and render targets themselves are not modelled. A render call becomes a `RenderCall` entry in a log.
- `renderer.setSize` and `background.resize` only update three.js cameras and canvases, and are left out.
- `createCircleGeometry`, the light disc's mesh, is left out. The disc is kept only as a position.
- The camera position (`applyAxisAngle`, `lookAt`) and the view and projection matrices are left out. The projection of the light position is a function parameter.
- `requestAnimationFrame` is left out: `Render` and `Update` are the per-frame methods, and the timestamp is a parameter.
- The DOM is left out:
  - elements are `nat` ids; a clone has its original's id;
  - `dataset.index` is an `int` (the `parseInt` of a number written by the code itself);
  - `classList` is one `Placement` per element.
- Hammer.js is left out: a swipe is the call `Swipe(left)`.
- `navigator.userAgent` is left out: the browser test is the boolean `isFirefox`.
- `Math.random()` is a supplied finite stream of samples in source call order. `sin`, `cos` and `sqrt` are uninterpreted. The proofs assume only sin 0 = 0, cos 0 = 1, sin^2 + cos^2 = 1, and that `sqrt` of a non-negative number is a non-negative square root.
- Floating point (32-bit attributes, doubles, GLSL precision) is modelled as exact `real` arithmetic. Rounding is not modelled.
- Effects.PointLight: the direction to the light is undefined in GLSL when the vertex sits on the light (0/0). The model uses the zero vector there.
- CubesGeometry.FaceNormal: the normals are stored as computed, but that they point outward is not proved. Twelve literal faces in one proof exceed the resource limit.
- CubesGeometry.BufferGeometry.AddCube: the twelve explicit `addTriangle` calls are a loop over the table `CubeFaces`, in the same order and with the same arguments.
- CubesGeometry.NormallyDistributedBounds: proved only for `from = -1, to = 1`, the only arguments the source passes.
- Simulation.CubesSimulation.constructor: does not restate the buffer contents. These are stated on `CubesGeometry.CreateCubesGeometry`; the constructor states the buffer's shape and the samples it consumes.
- Simulation.SetupScene: states the shape of the buffer and not its contents, for the same reason.
- Menu.CameraRotationProcess.Update: requires `seconds != 0`, since the code divides by it. Every process the menu creates has 0.4 s.
- Menu.Advance: requires `seconds != 0`, for the same reason.
- The click handler's `this` element is passed to `Click` as its position in the element list.
- Simulation.Reduced: takes widths as unbounded naturals. For widths of 2^31 and more, JavaScript's `>>` goes through a signed 32-bit integer and gives a negative result; such widths are not modelled.
