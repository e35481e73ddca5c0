# Painter's algorithm demo, modelled in Dafny

This project models the core of `algoritmopintor.c`. That program is a small OpenGL/GLUT demo of the painter's algorithm. It contains:

- A scene buffer of sixteen polygons (`scene[16]`, `nScene`). `buildScene` fills it once with a textured floor, two walls, a translucent window and the six faces of a cube.
- `computeDepths`. Every frame it gives each polygon the mean eye-space z of its vertices under the current model-view matrix.
- `drawScene`. In painter mode it copies the scene into a 64-slot buffer and sorts that copy back to front with `qsort` and `cmpPoly`. Otherwise it draws in array order.
- `makeChecker`, which fills a 64 x 64 RGB checkerboard texture.
- The keyboard and timer callbacks, which toggle the rendering options and move the camera parameter `tCam` along its path.

The Dafny modules follow that structure:

| Module | File | Contents |
|---|---|---|
| `Geometry` | `geometry.dfy` | Value types; the quad and cube builders as pure functions, with the geometry of the cube proved about them. |
| `Depth` | `depth.dfy` | Eye-space transform, mean depth, the comparator, and the in-place sort of the painter branch on an `array`. |
| `SceneBuffer` | `scene.dfy` | The scene buffer as a class with the fixed array and the count. `addQuad`, `addCube`, `buildScene`, `computeDepths` and `drawScene` are methods of it. |
| `Checker` | `checker.dfy` | The texel rule, and `makeChecker` as a method that fills a three-dimensional array. |
| `Options` | `options.dfy` | The option flags and `tCam`, both as a value with pure transition functions and as a class whose callbacks update the fields in place. |

Modelling choices:

- C `float`s are exact reals.
- The C `int` flags only ever hold 0 or 1, so they are booleans.
- The texture's `GLubyte` channels are a `Byte` newtype.
- The model-view matrix is fetched from OpenGL in the program. Here it is a parameter: sixteen reals in column-major order.
- The Esc key's `exit(0)` becomes a `quit` result of `Keyboard`.

## Model

| member | source | states |
|---|---|---|
| Geometry.Quad | algoritmopintor.c:92-103 | The descriptor addQuad builds: four vertices in the given order; the remaining slots zero; the given colour and textured flag; depth 0. The UVs run (u0,v0), (u0,v1), (u1,v1), (u1,v0) when textured and are all zero otherwise. |
| Geometry.CubeFaces | algoritmopintor.c:107-117 | addCube emits six untextured quads in the given colour, each well formed with four vertices and depth 0. |
| Geometry.CubeFacesUseCorners | algoritmopintor.c:107-110 | Every vertex of every face is a corner of the cube: each coordinate is the centre's plus or minus s/2. |
| Geometry.CubeFacesArePlanar | algoritmopintor.c:111-116 | Back and front lie in z = c.z - s/2 and z = c.z + s/2. Bottom and top lie in the two y planes. Left and right lie in the two x planes. |
| Geometry.CubeFacesAreProper | algoritmopintor.c:107-116 | For a non-zero size, the four corners of each face are pairwise distinct. |
| Geometry.CubeWinding | algoritmopintor.c:111-116 | For a positive size, the winding normals of front, top and right point out of the cube, and those of back, bottom and left point into it. |
| Depth.MultMV | algoritmopintor.c:174-180 | Column-major affine transform of a point. For a pure translation matrix the point moves by (M[12], M[13], M[14]), and the origin goes to that translation. |
| Depth.EyeDepths | algoritmopintor.c:174-180 | One eye-space z per vertex; its length equals the number of vertices. |
| Depth.WithDepths | algoritmopintor.c:183-193 | One output polygon per input polygon, each the same apart from its depth. |
| Depth.Sum | algoritmopintor.c:186-190 | The running total zsum after k vertices, added left to right. It has no contract of its own; SumBounds and SumShift state its properties. |
| Depth.Mean | algoritmopintor.c:191 | zsum divided by the vertex count; the result lies between the least and the greatest value. |
| Depth.MeanDepth | algoritmopintor.c:183-193 | The depth computeDepths gives a polygon: the mean eye-space z of its n vertices. It is no nearer than its nearest vertex and no farther than its farthest. |
| Depth.SumBounds | algoritmopintor.c:186-190 | A sum of k values in [lo, hi] lies in [k*lo, k*hi]. |
| Depth.MeanBounds | algoritmopintor.c:191 | The sum of values in [lo, hi] divided by their count lies in [lo, hi]. |
| Depth.MeanDepthBounds | algoritmopintor.c:183-193 | A polygon's computed depth lies between the nearest and the farthest eye-space z of its vertices. |
| Depth.FlatPolyDepth | algoritmopintor.c:183-193 | A polygon whose vertices all have eye-space z equal to z gets depth z. |
| Depth.SumShift | algoritmopintor.c:186-190 | Adding d to each of k summands adds k*d to the sum. |
| Depth.MeanShift | algoritmopintor.c:191 | Adding d to each value adds d to the sum divided by the count. |
| Depth.MeanDepthShift | algoritmopintor.c:174-193 | Moving the camera by d along its view axis adds d to every polygon's depth. |
| Depth.ViewShiftKeepsOrder | algoritmopintor.c:183-200 | Moving the camera along its view axis leaves every cmpPoly result between computed depths unchanged, so a back-to-front order stays back to front. |
| Depth.Cmp | algoritmopintor.c:196-200 | Result is 1, -1 or 0 exactly when the first depth is smaller than, larger than, or equal to the second. |
| Depth.CmpIsDescendingPreorder | algoritmopintor.c:196-200 | The comparator is antisymmetric and reflexive, and "compares at most equal" is total and transitive; these are the conditions qsort needs. |
| Depth.DeepestIndex | algoritmopintor.c:241 | Returns an index in [lo, hi) whose depth is at least that of every element there. |
| Depth.SortDeepestFirst | algoritmopintor.c:241 | Reorders a[0..n) into non-increasing depth as a permutation of the old contents, and leaves a[n..] unchanged. |
| Depth.PrefixMultiset | algoritmopintor.c:241 | Equal multisets with an equal suffix have equal prefixes; the sort's permutation on [0, n) follows from this. |
| SceneBuffer.InitialScene | algoritmopintor.c:119-142 | The ten polygons of buildScene: four quads, then the cube's six faces. Only the floor is textured, only the window is translucent, and every polygon is a well-formed quad. |
| SceneBuffer.Scene.constructor | algoritmopintor.c:89-90 | Static storage: sixteen zero-filled slots, none in use. |
| SceneBuffer.Scene.AddQuad | algoritmopintor.c:92-105 | Stores Quad(...) in slot nScene, increments nScene, and changes no other slot. |
| SceneBuffer.Scene.AddCube | algoritmopintor.c:107-117 | Slots nScene..nScene+5 receive the six CubeFaces in order, nScene grows by 6, and no other slot changes. |
| SceneBuffer.Scene.BuildScene | algoritmopintor.c:119-142 | The polygons in use are exactly InitialScene, and the unused slots keep their old values. |
| SceneBuffer.Scene.ComputeDepths | algoritmopintor.c:183-193 | The polygons in use become WithDepths of their old values, and the unused slots are untouched. |
| SceneBuffer.Scene.PolyDepth | algoritmopintor.c:186-191 | The inner loop that accumulates zsum and the division after it yield exactly MeanDepth of the polygon. |
| SceneBuffer.Scene.PainterCopy | algoritmopintor.c:238-241 | A fresh 64-slot buffer whose first nScene slots are a permutation of the scene sorted back to front; the scene itself is only read. |
| SceneBuffer.Scene.DrawScene | algoritmopintor.c:222-247 | Depths are computed as WithDepths. In painter mode the drawing order is a permutation of the scene with non-increasing depth; otherwise it is the scene in array order. |
| Checker.Bit3Set | algoritmopintor.c:43 | For an index below 64, (n & 0x8) != 0 holds exactly when n lies in an odd-numbered run of eight. |
| Checker.Texel | algoritmopintor.c:43 | A texel is 255 exactly when the row's and column's 8-blocks differ in parity, and 0 exactly when they agree. |
| Checker.CheckerBlockUniform | algoritmopintor.c:41-43 | All texels of one 8 x 8 block have the same value. |
| Checker.CheckerAlternatesDown | algoritmopintor.c:41-43 | A texel differs from the one eight rows below it. |
| Checker.CheckerAlternatesAcross | algoritmopintor.c:41-43 | A texel differs from the one eight columns to its right. |
| Checker.FillRow | algoritmopintor.c:42-47 | Writes all three channels of every texel of row i with Texel(i, j), and leaves the other rows alone. |
| Checker.MakeChecker | algoritmopintor.c:39-48 | A 64 x 64 x 3 buffer in which every channel of texel (i, j) equals Texel(i, j). |
| Options.ActionOf | algoritmopintor.c:289-303 | Classifies a key: it toggles exactly for p, z, t, c, l, g in either case; moves the camera forward exactly for '+' and back exactly for '-'; resets exactly for r and R. Each letter's toggle targets its own option: p/P painter, z/Z depth test, t/T blending, c/C culling, l/L lighting, g/G checker texture. |
| Options.Apply | algoritmopintor.c:291-301 | Each action keeps tCam in [0, 1]. '+' never leaves tCam above 1, '-' never leaves it below 0, and no action changes animDir. |
| Options.Negate | algoritmopintor.c:291-296 | Flips exactly the named option and leaves the other five options, tCam and animDir unchanged. |
| Options.Key | algoritmopintor.c:289-303 | The state after a key press. It keeps tCam in [0, 1], never changes animDir, and Esc changes nothing. |
| Options.Tick | algoritmopintor.c:307-308 | A tick keeps tCam in [0, 1], keeps tCam at most 1 while animating, and changes nothing when animation is off. |
| Options.TickAdvancesCamera | algoritmopintor.c:308 | While animating, a tick adds 0.005 to tCam. Past 1 it wraps tCam to 0. Nothing else changes. |
| Options.ToggleChangesOneFlag | algoritmopintor.c:291-296 | A toggle key negates exactly its own flag and leaves the other flags, tCam and animDir alone. |
| Options.ToggleBindings | algoritmopintor.c:291-296 | Gives each letter's exact effect: p negates usePainter, z useDepth, t useBlend, c useCull, l useLight, g useChecker. The upper-case letter does the same as the lower-case one. |
| Options.ToggleTwiceRestores | algoritmopintor.c:291-296 | Pressing a toggle key twice restores the state. |
| Options.CameraKeys | algoritmopintor.c:297-298 | '+' and '-' move tCam by 0.02, clamped to 1 and to 0, and change nothing else. |
| Options.ResetKeepsChecker | algoritmopintor.c:299-301 | R turns the five rendering options on and rewinds tCam. It keeps the texture flag and animDir, and pressing it again changes nothing. |
| Options.UnboundKeysChangeNothing | algoritmopintor.c:289-303 | Esc and every key without a binding leave the options unchanged. |
| Options.RunKeepsInvariant | algoritmopintor.c:288-311 | Any sequence of key presses and ticks keeps tCam in [0, 1] and never changes animDir. |
| Options.TimerIdleAfterAnyRun | algoritmopintor.c:307-308 | Nothing sets animDir, so after any run from the initial state a tick changes nothing. |
| Options.Controls.constructor | algoritmopintor.c:145-149 | The static initial values. usePainter, useDepth, useBlend, useCull and useLight are on (lines 145-149). useChecker is on (line 37). tCam is 0 and animDir is off (lines 65-66). |
| Options.Controls.Keyboard | algoritmopintor.c:288-305 | Reports quit exactly for Esc. Updates the fields to Key of the old state. |
| Options.Controls.Perform | algoritmopintor.c:291-301 | One arm of the switch: the fields become Apply of the old state and the action. |
| Options.Controls.ToggleFlag | algoritmopintor.c:291-296 | The toggle arms: the fields become the old state with one flag negated. |
| Options.Controls.Timer | algoritmopintor.c:307-308 | Updates the fields to Tick of the old state. |

## Left out

- OpenGL and GLUT calls are not modelled. This covers texture upload, lighting, the enable/disable of depth test, culling and blending, `drawPoly`'s vertex submission, reshape, `glutPostRedisplay` and timer re-registration. The model keeps only the state these calls read.
- `bezier3` and the vector helpers it calls, `vadd` and `vscale`, are not part of this model. They only place the camera. The matrix they lead to is a parameter of `ComputeDepths` and `DrawScene`.
- `vsub`, `vdot`, `vcross` and `vnorm` are not modelled. Nothing in the program calls them.
- The `spin` counter and the push/rotate/pop in `drawScene` are not modelled. The rotation is applied before `computeDepths` and before every `drawPoly`. So it turns the whole scene, not only the cube, about the vertical axis through (0, -1, 6). Its effect reaches the core only through the model-view matrix, which is a parameter of `ComputeDepths` and `DrawScene`.
- `showTex` is not modelled. It is constant 1 and is only read while drawing.
- Single-precision rounding is not modelled. Depths, coordinates and tCam are exact reals, so the clamps 1 and 0 and the steps 0.02 and 0.005 are exact.
- SceneBuffer.Scene.AddQuad: requires a free slot. Writing past `scene[16]` is undefined behaviour in C, and the program never does it.
- Depth.SortDeepestFirst: it is a selection sort standing in for the C library's `qsort`. Only the result `qsort` guarantees is specified: a permutation in non-increasing depth. The order among equal depths is unspecified in both.
- Options.Controls.Keyboard: Esc only reports `quit`. The process exit is not modelled.
- The `x`, `y` arguments of `keyboard` and the `v` argument of `timer` are not modelled; they are unused.
