# cgfs rasteriser core in Dafny

A model of the core of a small software rasteriser written in Rust, following the
"Computer Graphics from Scratch" approach. The core has three parts:

- **Linear-algebra kernel** (`src/math.rs`). It covers:
  - a column-major homogeneous `Matrix4` with its constructors (`from_cols`, `from_scale`,
    `from_translation`, `from_rotation_z`, `zero`, `identity`) and the products `mul_v` and
    `mul_m`;
  - the `Vector4` ↔ `[f32; 4]` conversions;
  - `Point2::xy` and `Point2::xyh`, and `Transform::apply`;
  - the inclusive `interpolate`, which turns an integer range into evenly stepped values.
- **Frame buffer and line drawer** (`src/main.rs`). It covers:
  - `set_pixel`, which maps centred coordinates with y pointing up to a slot of a flat
    `u32` buffer of 800 × 600 pixels;
  - `draw_line`, which picks the dominant axis, interpolates along it and writes one pixel
    per step;
  - the half-open `interpolate` of that file;
  - the startup frame `main` paints before opening its window: a teal (`0x008080`)
    background and three white lines.
- **Perspective projection and instance rendering** (`src/scene.rs`). It covers:
  - `viewport_to_canvas` and `project_vertex`;
  - `render_instance`, which moves each model vertex to the instance position, projects it
    and then draws one wireframe triangle per model triangle;
  - `render_triangle`;
  - the `Triangle`, `Model` and `Instance` constructors.

The Dafny modules are:

- `Numeric` (`numeric.dfy`): `u32`, and the `as i32` cast as truncation toward zero (`Trunc`)
  and as the saturating cast (`SatI32`).
- `Math` (`math.dfy`).
- `PixelCanvas` (`pixel_canvas.dfy`).
- `SceneRender` (`scene.dfy`).

How the source is represented:

- `f32` arithmetic is exact `real` arithmetic. `i32` and `usize` are unbounded `int` and `nat`.
- Pure code is modelled as functions and lemmas.
- The loops are methods proved against specification functions:
  - both `interpolate`s against `Ramp`, the values an accumulate-and-push loop produces;
  - `draw_line` against `Paint` over `LinePixels`, the pixels it writes in order;
  - the fill loop against a constant buffer;
  - `render_instance` against `ProjectedVertices` and `Wireframes`.
- The frame buffer is an `array<u32>`.
- The scene's drawing surface is a class whose `drawn` field records every
  `draw_wireframe` call in order.

## Model

| member | source | states |
|---|---|---|
| Numeric.Trunc | src/main.rs:52 | `as i32` on an in-range value truncates toward zero: within 1 of the input, never further from zero |
| Numeric.SatI32 | src/scene.rs:16-17 | `as i32` on any finite value is an `i32`, and equals truncation toward zero when the value fits |
| Numeric.SatI32Monotone | src/scene.rs:16-17 | the saturating cast never reverses the order of two values |
| Numeric.TruncBetween | src/main.rs:52 | a value between two integers truncates to an integer between them |
| Math.XYH | src/math.rs:17-19 | `Point2::xyh` stores its three arguments |
| Math.XY | src/math.rs:12-14 | `Point2::xy` is `xyh` with shading 1 |
| Math.ToArray | src/math.rs:187-191 | no contract of its own: `From<Vector4> for [f32; 4]`, whose inverse is stated by `ArrayConversionsRoundTrip` |
| Math.FromArray | src/math.rs:193-197 | no contract of its own: `From<[f32; 4]> for Vector4`, whose inverse is stated by `ArrayConversionsRoundTrip` |
| Math.ArrayConversionsRoundTrip | src/math.rs:187-197 | the two `Vector4`/`[f32; 4]` conversions are mutually inverse |
| Math.MulV | src/math.rs:142-149 | no contract of its own: `mul_v`; what it does is stated by `Identity`, `Zero`, `ColumnOfMatrix`, the `…Action` lemmas and `MulMComposes` |
| Math.MulM | src/math.rs:133-140 | no contract of its own: `mul_m`; it is stated by `MulMComposes` (composition), `MulMAssociative` and `IdentityNeutral` |
| Math.FromScale | src/math.rs:64-71 | no contract of its own: `from_scale`; its action is stated by `ScaleAction` |
| Math.FromTranslation | src/math.rs:73-80 | no contract of its own: `from_translation`; its action is stated by `TranslationAction`, `TranslationMovesPoint` and `TranslationInverse` |
| Math.FromRotationZ | src/math.rs:104-113 | no contract of its own: `from_rotation_z` with the cosine and sine as `c`, `s`; its action is stated by `RotationZAction`, `RotationZPreservesLength` and `RotationZInverse` |
| Math.FromCols | src/math.rs:55-62 | the matrix built from four columns sends the unit vectors to those columns |
| Math.Zero | src/math.rs:115-122 | `zero()` sends every vector to the zero vector |
| Math.Identity | src/math.rs:124-131 | `identity().mul_v(v) == v` for every `v` |
| Math.ScaleAction | src/math.rs:64-71 | `from_scale(s)` scales x, y and z by `s` and keeps w |
| Math.TranslationAction | src/math.rs:73-80 | `from_translation(t)` adds `w·t` to x, y and z and keeps w |
| Math.TranslationMovesPoint | src/math.rs:167-170 | a point `(x,y,z,1)` moves to `(x+t.x, y+t.y, z+t.z, 1)`; the origin lands on `t` |
| Math.RotationZAction | src/math.rs:104-113 | with the source's layout, `from_rotation_z` sends `(x,y)` to `(c·x + s·y, c·y − s·x)` and keeps z and w |
| Math.RotationZPreservesLength | src/math.rs:104-113 | when `c² + s² = 1` the rotation keeps the length of the xy part |
| Math.ColumnOfMatrix | src/math.rs:142-149 | `mul_v` of a unit vector is the matching column |
| Math.MulMComposes | src/math.rs:133-149 | `a.mul_m(b).mul_v(v) == a.mul_v(b.mul_v(v))` for all `a`, `b`, `v` |
| Math.MulMAssociative | src/math.rs:133-140 | `mul_m` is associative |
| Math.IdentityNeutral | src/math.rs:124-140 | `identity()` is neutral on both sides of `mul_m` |
| Math.TranslationInverse | src/math.rs:158-162 | `from_translation(t).mul_m(from_translation(-t)) == identity()` for every `t` |
| Math.RotationZInverse | src/math.rs:153-157 | the rotations built from `(c, s)` and `(c, −s)` multiply to `identity()` when `c² + s² = 1` |
| Math.Apply | src/math.rs:207-209 | `Transform::apply` returns the vertex unchanged, whatever the transform |
| Math.Ramp | src/math.rs:232-236 | `n` pushes of an accumulating value give `n` values |
| Math.RampAt | src/math.rs:232-235 | the `k`-th pushed value is the start plus `k` steps |
| Math.Interpolation | src/math.rs:226-238 | one value when `i0 == i1`, `i1 − i0 + 1` when `i0 < i1`, none when `i0 > i1` |
| Math.Interpolate | src/math.rs:226-238 | the loop returns exactly `Interpolation`: `[d0]` for `i0 == i1`, otherwise the ramp from `d0` by the slope over `i0..i1+1` |
| Math.InterpolationValues | src/math.rs:231-236 | element `k` is `d0 + k·a` with `a = (d1−d0)/(i1−i0)`; the first is `d0`, and the last is `d1` when `i0 < i1` |
| Math.InterpolationMonotone | src/math.rs:231-235 | the values are non-decreasing when `d0 ≤ d1` and non-increasing when `d1 ≤ d0` |
| Math.InterpolationBetween | src/math.rs:231-236 | every value lies between `d0` and `d1` |
| PixelCanvas.PixelIndex | src/main.rs:39-43 | the slot `set_pixel` computes; an on-screen pixel's slot lies inside the full buffer |
| PixelCanvas.PixelIndexRoundTrip | src/main.rs:38-43 | an on-screen pixel (`−400 ≤ x < 400`, `−300 < y ≤ 300`) has a valid slot, and that slot decodes back to the pixel |
| PixelCanvas.PixelOfRoundTrip | src/main.rs:41-43 | every slot of the full buffer is the slot of exactly one on-screen pixel |
| PixelCanvas.PixelIndexInjective | src/main.rs:41-43 | distinct on-screen pixels get distinct slots |
| PixelCanvas.SetPixelWrapsRow | src/main.rs:39-43 | `x = 400`, off screen, still passes the index computation and lands on the first pixel of the next row down |
| PixelCanvas.SetPixel | src/main.rs:38-44 | exactly the slot `(300 − y)·800 + (x + 400)` becomes `color`; nothing else changes. The requires is the condition under which the source, built with overflow checks, does not panic |
| PixelCanvas.Paint | src/main.rs:51-53 | a sequence of `set_pixel` writes keeps the buffer's length; its contents are stated by `PaintAt` and `PaintSlot` |
| PixelCanvas.PaintAt | src/main.rs:51-53 | after a sequence of `set_pixel` calls, every written slot holds the colour and every other slot keeps its value |
| PixelCanvas.PaintSlot | src/main.rs:51-53 | after a sequence of `set_pixel` calls, a slot holds the colour exactly when one of the pixels is stored there, and its old value otherwise |
| PixelCanvas.Interpolation | src/main.rs:69-80 | one value when `i0 == i1`, `i1 − i0` values when `i0 < i1` (the end is excluded), none when `i0 > i1` |
| PixelCanvas.Interpolate | src/main.rs:69-80 | the loop returns exactly `Interpolation`: `[d0]` for `i0 == i1`, otherwise the ramp over `i0..i1` |
| PixelCanvas.InterpolationIsPrefix | src/main.rs:73-79 | for `i0 < i1` the half-open result is the inclusive one of src/math.rs without its last value; element `k` is `d0 + k·a` |
| PixelCanvas.InterpolationBetween | src/main.rs:73-79 | every value lies between `d0` and `d1` |
| PixelCanvas.DrawLine | src/main.rs:46-62 | the buffer afterwards is the old buffer with the pixels of `LinePixels` written in order; the requires is that each of them passes `set_pixel` |
| PixelCanvas.LinePixels | src/main.rs:46-62 | no contract of its own: the pixels `draw_line` writes, in order, with the shadowed `min`/`max` as written; stated by `LineAlongX`, `LineAlongY`, `LineBackwardsIsEmpty` and `LineInBounds` |
| PixelCanvas.LineAlongX | src/main.rs:47-53 | x-major with `x0 ≤ x1`: exactly `x1 − x0` (> 0) pixels, one per column `x0 + k`, at `y = trunc(y0 + k·a)`, starting at `(x0, y0)` |
| PixelCanvas.LineAlongY | src/main.rs:54-60 | y-major with `y0 < y1`: exactly `y1 − y0` pixels, one per row `y0 + k`, at `x = trunc(x0 + k·a)`, starting at `(x0, y0)` |
| PixelCanvas.LineBackwardsIsEmpty | src/main.rs:48-58 | x-major with `x1 < x0`, or y-major with `y1 ≤ y0` (a single point included), writes no pixel |
| PixelCanvas.OrderedLineCoversSpan | src/main.rs:46-62 | with the endpoints ordered first, the line has `|x1 − x0|` pixels (or `|y1 − y0|`), one per column (row) from the lower endpoint, and is the same line whichever endpoint comes first |
| PixelCanvas.LineInBounds | src/main.rs:46-62 | a line between two on-screen endpoints stays on screen, so every `set_pixel` it makes is in bounds |
| PixelCanvas.FillBackground | src/main.rs:10-12 | after the fill loop every slot is `0x008080` |
| PixelCanvas.StartupLinesInBounds | src/main.rs:15-17 | the three lines of the startup frame lie on screen |
| PixelCanvas.StartupPictureContents | src/main.rs:8-17 | in the startup picture a slot is white (`0xFFFFFF`) exactly when one of the three lines covers it, and teal (`0x008080`) otherwise |
| PixelCanvas.StartupFrame | src/main.rs:8-17 | the frame `main` builds, computed in exact arithmetic: the teal background with the three white lines painted over it in order |
| SceneRender.NewScene | src/scene.rs:11-13 | `Scene::new` stores its width, height and distance |
| SceneRender.NewTriangle | src/scene.rs:192-194 | `Triangle::new` stores its indices and colour unchanged |
| SceneRender.NewModel | src/scene.rs:203-208 | `Model::new` stores its vertex and triangle lists unchanged |
| SceneRender.NewInstance | src/scene.rs:217-219 | `Instance::new` stores its model and position unchanged |
| SceneRender.RescaleOrder | src/scene.rs:16-17 | the scaling of one coordinate sends 0 to 0 and keeps order |
| SceneRender.RescaleWithin | src/scene.rs:16-17 | a coordinate within half the viewport scales to within half the canvas |
| SceneRender.ScaleCast | src/scene.rs:16-17 | each canvas coordinate is an `i32`, including for an empty viewport, where the division gives an infinity or NaN |
| SceneRender.ScaleCastOrder | src/scene.rs:16-17 | each coordinate's scale-and-cast sends 0 to 0 and keeps order, for an empty viewport span too |
| SceneRender.ScaleCastWithin | src/scene.rs:16-17 | a coordinate within half the viewport span lands within half the canvas span, for an empty viewport span too |
| SceneRender.ViewportToCanvas | src/scene.rs:14-19 | `viewport_to_canvas` gives full shading (`h = 1`) and `i32` coordinates; its scaling is stated by `ViewportToCanvasAxes` and `ViewportMapsOntoCanvas` |
| SceneRender.ViewportToCanvasAxes | src/scene.rs:14-19 | for any viewport, an empty one included: the result has `h = 1`; x depends only on x and y only on y; each axis keeps the order of its inputs |
| SceneRender.ViewportMapsOntoCanvas | src/scene.rs:14-19 | for any viewport, an empty one included: the viewport centre maps to `(0, 0)`; a viewport point maps within half the canvas size of the centre |
| SceneRender.DivideOnPlane | src/scene.rs:23 | the perspective divide leaves a coordinate on the plane `z = d` unchanged |
| SceneRender.DivideAlongRay | src/scene.rs:23 | scaling a coordinate and its depth by the same non-zero `k` does not change the perspective divide |
| SceneRender.ProjectVertex | src/scene.rs:21-24 | `project_vertex` gives full shading and `i32` coordinates; it is the perspective divide followed by `viewport_to_canvas` (stated by `ProjectionOnPlane` and `ProjectionAlongRay`) |
| SceneRender.ProjectionOnPlane | src/scene.rs:21-24 | a vertex on the projection plane is handed to `viewport_to_canvas` unchanged |
| SceneRender.ProjectionAlongRay | src/scene.rs:21-24 | vertices on one line through the camera project to the same pixel |
| SceneRender.Offset | src/scene.rs:29-32 | the copy is moved by exactly the instance position in each coordinate |
| SceneRender.ProjectedVertices | src/scene.rs:27-34 | one projected point per model vertex, in order: entry `i` is `project_vertex(vertices[i] + position)` |
| SceneRender.Wireframes | src/scene.rs:35-37 | one wireframe per triangle, in list order, each with the triangle's three indexed projected corners and its colour |
| SceneRender.Canvas.DrawWireframe | src/scene.rs:42-47 | a `draw_wireframe` call appends its three points and colour to the record of what was drawn |
| SceneRender.RenderTriangle | src/scene.rs:40-48 | draws `projected[v.0]`, `projected[v.1]`, `projected[v.2]` in the triangle's colour; requires each index `< projected.len()`, as the indexing does |
| SceneRender.RenderInstance | src/scene.rs:26-38 | appends exactly `Wireframes(ProjectedVertices(…))` to the canvas; the instance and its model are values, so they are not changed |
| SceneRender.CubeInstancesRenderable | src/scene.rs:143-174 | the cube has 8 vertices and 12 triangles with indices below 8, and both instances put every vertex in front of the camera |

## Left out

- IEEE `f32` rounding: every `f32` is an exact real. This has two effects:
  - The exact equalities of the matrix laws hold as stated. In the source they hold only up to
    rounding, except for the values in the tests.
  - `draw_line`'s pixels are those of exact arithmetic. Where the exact value `d0 + k·a` is a
    whole number, the source's `f32` accumulation `d += a` can land just below it and truncate
    one pixel lower. So `LinePixels`, `DrawLine`, `StartupPicture` and `StartupFrame` can differ
    from the program there. An example is the third startup line, `draw_line(10, 10, 200, 20, …)`,
    at x = 29: the model has y = 11, where the `f32` sum comes to just under 11 and gives 10.
- Integer overflow: `i32` and `usize` are unbounded integers, so the model follows a build with
  overflow checks only where no overflow happens. Three places are affected:
  - `set_pixel`'s index arithmetic. Without overflow checks the negative `x_norm` or `y_norm`
    becomes a huge `usize`, and the slot written is `PixelIndex(x, y)` modulo 2^64. So
    `set_pixel(-401, 299, c)` writes slot 799, pixel (399, 300), where the model's requires
    (`IndexOk`) rules the call out.
  - `x1 - x0`, `y1 - y0` and `.abs()` (of `i32::MIN`) in `draw_line`, and `x + hw` and
    `hh - y` in `set_pixel`. Every line between on-screen endpoints is far from overflow.
  - `i1 + 1` in src/math.rs `interpolate`. When `i1 == i32::MAX` it panics with overflow
    checks and gives an empty range without them, while `Math.Interpolation` gives `i1 - i0 + 1`
    values.
- The cosine and sine in `from_rotation_z` are taken as two reals `c`, `s`. Where the
  laws need it, they are assumed to satisfy `c² + s² = 1`. The matrix is modelled with the
  source's column layout, which turns the plane the opposite way to the usual convention.
- The minifb window and its event loop in `main` are I/O and are not modelled.
- The `println!` and `dbg!` tracing in `project_vertex` and `render_triangle` is a side effect only.
- `Canvas`, `Color` and `draw_wireframe` of src/scene.rs are not part of this model. The
  canvas is a stand-in with a width and a height that records each wireframe call, so the
  pixels a wireframe covers are not modelled.
- The demo scenes `render` and `render2` are not modelled; the cube of `render2` is used
  as an example input only.
- The commented-out x and y rotations are not live code.
- SceneRender.ProjectVertex: requires `v.z != 0`. At `z = 0` the source divides by zero and goes on
  with infinities or NaN, which the model does not follow.
- Colours are plain `u32` parameters; `Color::rgb` is not part of this model.
- NaN is never produced by `draw_line`'s interpolation, since its values lie between two integers.
  So its `as i32` is modelled as plain truncation (`Trunc`). In `viewport_to_canvas` the
  saturating cast `SatI32` is used.

## Findings

| source | as written | input that shows it | evidently intended | confidence | as-written member | corrected member |
|---|---|---|---|---|---|---|
| src/main.rs:48-49, 55-56 | `let x0 = min(x0, x1); let x1 = max(x0, x1);` reads the new `x0`, so `x1` keeps its old value; when the endpoints come right to left (or top to bottom) the loop range `x0..x1` is empty and nothing is drawn | `draw_line(240, 120, -200, -100, c)`: x-major with `x1 < x0`, writes no pixel; likewise `draw_line(60, 240, -50, -200, c)` along y | swap the two endpoints when they are out of order, so a line is drawn the same whichever endpoint comes first | high, not executed | PixelCanvas.LineBackwardsIsEmpty | PixelCanvas.OrderedLineCoversSpan |
