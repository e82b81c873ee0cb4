# cg-animation2d renderer, modelled in Dafny

This project models the frame logic of the `Renderer` class of
cg-animation2d (`scripts/renderer.js`), a canvas slide show of 2D animations.
Every part is a pure function over immutable records. Nothing writes to a
canvas: a frame returns the list of calls it would make on the 2D context.

- **FrameClock** (`clock.dfy`): the `start_time` / `prev_time` bookkeeping
  of `animate`. The first frame sees time 0 and delta 0. After that, time is
  measured from the first timestamp and delta from the previous one.
- **Bounce** (`bounce.dfy`): slide 0's ball.
  - Each frame the position moves by the velocity.
  - A velocity component changes sign when the moved ball pokes out of the
    canvas on that axis. The overshoot is never corrected.
  - Positions are real numbers, because `canvas.width / 2` is fractional for
    odd widths.
- **Vertices** (`vertices.dfy`): homogeneous vertices `(x, y, w)` and the
  centroid (the mean of x and y).
  - A 2x2 linear map applied about a centre point, rebuilding each vertex
    with `w = 1`.
  - Rotation and scaling are both instances of it. Preserving the centroid
    and composing two maps are proved once, here.
- **Rotation** (`rotation.dfy`): slide 1. Each polygon is rotated about its
  own centroid. The rotation acts on the current, already-rotated vertices.
- **Scaling** (`scaling.dfy`): slide 2.
  - The factor is a sine value remapped into `[0.5, 1.5]`, then clamped.
  - Each polygon is scaled about its centroid.
  - The source's step-by-step version is modelled too: a first, discarded
    unclamped scaling, then a self-copy loop. Its net effect is one scaling.
- **PolygonPath** (`polygon.dfy`): `drawConvexPolygon`.
  - An empty list draws nothing.
  - Malformed entries are skipped.
  - Each other vertex is projected to `(x / w, y / w)`.
  - `moveTo` is used exactly for the entry at original index 0. If that
    entry is malformed, every point is a `lineTo`.
  - The path is closed and filled.
- **Renderer** (`renderer.dfy`): the object's state, its constructor, and
  `updateTransforms`. Also `drawSlide` and `animate`, plus the invariants a
  frame keeps.
  - `Math.cos` and `Math.sin` are parameters of a frame, of type
    `real -> real`.
  - `updateTransforms` receives `delta_time` but never reads it, so the
    model does not pass it.
  - Slide 2 clears the canvas twice: `drawSlide` clears it, then
    `drawSlide2` clears it again.
- **Surface** (`surface.dfy`): the canvas size, the context calls, and a
  count of `fill` calls.

## Model

| member | source | states |
|---|---|---|
| FrameClock.Advance | scripts/renderer.js:84-113 | On the first frame time and delta are both 0. Otherwise time is the timestamp minus the start time, and delta is the timestamp minus the previous timestamp. The clock is always left running, with the timestamp as the previous time. The start time is set only on the first frame. |
| FrameClock.AfterRunning | scripts/renderer.js:84-113 | Once running, any sequence of frames keeps the start time. It leaves the last timestamp as the previous time. |
| FrameClock.FramesRunning | scripts/renderer.js:88-113 | In a run of frames on a running clock, frame k has time `ts[k] - start` and delta `ts[k] - ts[k-1]`. The first delta is measured from the stored previous time. |
| FrameClock.FirstRun | scripts/renderer.js:84-89 | A run from the unstarted clock makes the first timestamp the start, for good. The first frame has time 0 and delta 0. Every later frame is measured from the first timestamp and the one before it. |
| FrameClock.DeltasTelescope | scripts/renderer.js:89-113 | The deltas of a running clock add up to the last timestamp minus the stored previous time. |
| FrameClock.DeltasSumToTime | scripts/renderer.js:84-113 | From the unstarted clock, the deltas of a run add up to the elapsed time of its last frame. |
| Bounce.Initial | scripts/renderer.js:19-23 | The constructed ball is centred on the canvas, with velocity (5, 2) and radius 50. |
| Bounce.Step | scripts/renderer.js:120-134 | The new position is the old position plus the old velocity, and the radius is kept. The x velocity is negated if and only if the moved ball escapes [0, width]; otherwise it is unchanged. The same holds for y against the height. The speed on each axis is kept. |
| Bounce.StepKeepsInCanvas | scripts/renderer.js:123-132 | Take a ball at most one step past a border and already heading back from any border it is past. After a frame it is still such a ball. |
| Bounce.InitialInCanvas | scripts/renderer.js:19-23 | In a canvas at least 100 pixels each way, the constructed ball starts inside that invariant. |
| Bounce.StepsKeepInCanvas | scripts/renderer.js:120-134 | Any number of frames keeps the ball inside the invariant. They also keep its speed on each axis and its radius. |
| Vertices.Centroid | scripts/renderer.js:142-149 | The centroid times the vertex count is the sum of the x (resp. y) coordinates, i.e. it is their mean. |
| Vertices.MapAbout | scripts/renderer.js:152-162 | Mapping a list about a centre keeps its length and maps each vertex in place: vertex i becomes vertex i moved to the centre's frame, mapped and moved back. Every result vertex has w = 1. |
| Vertices.MapAboutKeepsCentroid | scripts/renderer.js:142-162 | Any linear map applied about the centroid leaves the centroid where it was. |
| Vertices.MapAboutThen | scripts/renderer.js:152-162 | Two maps about the same centre, one after the other, are one map by the matrix product. |
| Vertices.MapAboutIdentity | scripts/renderer.js:152-162 | The identity map changes nothing on vertices whose w is 1. |
| Rotation.RotateAboutCentroid | scripts/renderer.js:142-162 | One polygon of slide 1 keeps its vertex count. Each vertex is moved to the frame of the centroid of the current vertices, turned by the rotor [[cos, -sin], [sin, cos]], moved back and rebuilt with w = 1. An empty polygon stays empty. |
| Rotation.RotateFormula | scripts/renderer.js:152-161 | Vertex i becomes `(x-cx)cos - (y-cy)sin + cx` and `(x-cx)sin + (y-cy)cos + cy`, with w = 1. |
| Rotation.RotateKeepsCentroid | scripts/renderer.js:142-162 | The rotation keeps the vertex count, sets every w to 1 and leaves the centroid unchanged. |
| Rotation.RotateTwice | scripts/renderer.js:135-163 | Rotating the already-rotated vertices by b after a is one rotation, with the angle-addition values of cos(a+b) and sin(a+b). |
| Rotation.RotateThenUnrotate | scripts/renderer.js:152-161 | For cos² + sin² = 1, rotating by an angle and then by its opposite restores a polygon whose w are all 1. |
| Rotation.RotateByZero | scripts/renderer.js:152-161 | Rotating by cos 1, sin 0 changes nothing on a polygon whose w are all 1. |
| Scaling.ScaleFor | scripts/renderer.js:166-174 | For a sine value in [-1, 1] the remapped factor lies in [0.5, 1.5], and the endpoints map to the endpoints. |
| Scaling.Clamp | scripts/renderer.js:199 | The clamped factor always lies in [0.5, 1.5]. It equals the input when the input is in range, and otherwise the nearer bound. |
| Scaling.Factor | scripts/renderer.js:174-199 | The factor a frame uses is in range for any sine value. For a sine value in [-1, 1] the clamp changes nothing. |
| Scaling.ScaleAboutCentroid | scripts/renderer.js:177-211 | One polygon of slide 2 keeps its vertex count. Each vertex is moved to the frame of the centroid, dilated by k, moved back and rebuilt with w = 1. An empty polygon stays empty. |
| Scaling.ScaleFormula | scripts/renderer.js:202-211 | Vertex i becomes `(v - centre)·k + centre` with w = 1. |
| Scaling.ScaleKeepsCentroid | scripts/renderer.js:177-211 | Scaling keeps the vertex count, sets every w to 1 and leaves the centroid unchanged. |
| Scaling.ScaleTwice | scripts/renderer.js:170-211 | Scaling the already-scaled vertices multiplies the factors. |
| Scaling.ScaleThenUnscale | scripts/renderer.js:202-211 | Scaling by k ≠ 0 and then by 1/k restores a polygon whose w are all 1. |
| Scaling.ScaleFrame | scripts/renderer.js:170-219 | The step-by-step frame amounts to one scaling by the clamped factor. The step-by-step frame is: the discarded unclamped scaling, the clamped scaling, and the self-copy loop. |
| PolygonPath.ValidIndices | scripts/renderer.js:305-309 | The drawn indices are exactly the in-range indices of present (not malformed) entries, in strictly increasing order. |
| PolygonPath.StepCommand | scripts/renderer.js:313 | The pen command is `moveTo` if and only if the original index is 0, and `lineTo` otherwise. |
| PolygonPath.StepCommandProjects | scripts/renderer.js:311-313 | The pen goes to the vertex divided by its w. |
| PolygonPath.Strokes | scripts/renderer.js:305-314 | There is one pen command per present entry, in order. Each is the command for that entry's original index and vertex. |
| PolygonPath.ConvexPolygonPath | scripts/renderer.js:296-318 | An empty list gives no commands. Otherwise the path is begin, one stroke per present entry, close, then fill. |
| PolygonPath.DrawConvexPolygon | scripts/renderer.js:296-318 | The loop over the list produces exactly that path. |
| PolygonPath.PathMovesIffFirstPresent | scripts/renderer.js:305-313 | The path contains a `moveTo` if and only if entry 0 is present, and then it is the first stroke. |
| PolygonPath.StrokesDoNotFill | scripts/renderer.js:305-314 | Pen commands never paint. |
| PolygonPath.PathFillsOnce | scripts/renderer.js:296-318 | A non-empty list paints exactly one shape, even if every entry is malformed. An empty list paints none. |
| Renderer.Init | scripts/renderer.js:9-64 | The constructed state shows slide 0 with the clock not started. The ball is centred, moving at (5, 2) with radius 50. Each polygon slide holds the diamond (400,150), (500,300), (400,450), (300,300). |
| Renderer.UpdateTransforms | scripts/renderer.js:119-224 | Only the current slide's state changes. Slide 0 steps the ball. Slide 1 rotates every polygon by 0.002·time. Slide 2 scales every polygon by the factor for sin(time · 0.0000005). Any other slide changes nothing. |
| Renderer.RotateModels | scripts/renderer.js:135-163 | The `forEach` over slide 1 keeps the number of models and replaces model i by model i rotated about its own centroid, with the same cos and sin for every model. |
| Renderer.ScaleModels | scripts/renderer.js:165-219 | The `forEach` over slide 2 keeps the number of models and replaces model i by model i scaled about its own centroid, by the same clamped factor for every model. |
| Renderer.Paths | scripts/renderer.js:257-282 | Drawing a polygon list paints one shape per polygon that has at least one vertex. |
| Renderer.PathsAppend | scripts/renderer.js:262-264 | The polygons are drawn in list order: the commands for a concatenation of lists are the commands for the first list followed by those for the second, and a one-polygon list draws exactly that polygon's path. |
| Renderer.DrawSlide | scripts/renderer.js:227-292 | The canvas is always cleared first. Slide 0 draws the ball's arc and fills it. Slides 1 and 2 draw their polygons' paths, and slide 2 clears a second time first. Slide 3 draws its first model. Any other index draws nothing more. |
| Renderer.Animate | scripts/renderer.js:82-114 | The clock advances, with start and previous time as in Advance. The new state is the per-slide update at the elapsed time Advance computes (not the delta), with the advanced clock. The frame draws that updated state, keeps every w at 1, and leaves canvas, slide index and settings alone. |
| Renderer.InitValid | scripts/renderer.js:9-64 | The constructed state has w = 1 everywhere. In a canvas of at least 100×100 its ball starts inside the bounce invariant. |
| Renderer.UpdateKeepsValid | scripts/renderer.js:135-219 | Both transforms leave every vertex with w = 1. |
| Renderer.UpdateKeepsShapes | scripts/renderer.js:119-219 | For any elapsed time the per-slide update keeps the number of polygons, every polygon's vertex count and centroid, the ball's speed on each axis and radius, and the ball inside the bounce invariant. |
| Renderer.AnimateKeepsShapes | scripts/renderer.js:82-219 | A frame keeps every polygon's vertex count and centroid. It keeps the ball's speed and radius, and keeps the ball inside the invariant. |
| Renderer.DrawSlideFills | scripts/renderer.js:227-292 | Slide 0 paints one shape. Slides 1 and 2 paint one per non-empty polygon, slide 3 paints one, and any other index paints none. |
| Renderer.RotationAccumulates | scripts/renderer.js:135-163 | Two slide-1 frames at elapsed times t1 and t2 rotate like one frame at t1 + t2. This holds whenever cos and sin obey angle addition, because each frame rotates the current vertices by the absolute elapsed time. |
| Renderer.ScalingCompounds | scripts/renderer.js:165-219 | Two slide-2 frames scale each polygon by the product of the two frames' factors. |
| Renderer.FirstFrameDoesNotRotate | scripts/renderer.js:84-163 | On the first frame the elapsed time is 0. So with cos 0 = 1 and sin 0 = 0, slide 1 leaves its polygons unchanged. |

## Left out

- Canvas and DOM setup, `getContext`, colours and `fillStyle` strings (scripts/renderer.js:10-13, 250, 259, 275, 290, 302). These are side effects on the page. The model returns context calls without colours.
- The `arc` start and end angles (0 and 2π). The `Arc` command keeps only the centre and radius.
- Scheduling the next frame with `requestAnimationFrame` and `setTimeout`, including the frame-rate delay (scripts/renderer.js:99-110). `limit_fps` and `fps` are kept in the state but nothing reads them.
- The setters `limitFps`, `setFps` and `setSlideIndex` (scripts/renderer.js:68-80). Each is one field assignment, which is a record update on the state.
- `Math.sin` and `Math.cos` are parameters. IEEE floating point is not modelled; all arithmetic is exact over the reals.
- `console.error` logging. A vertex list that is not an array is ruled out by typing. A malformed entry is the `Malformed` slot.
- Division by a zero w is not checked by the source. The path builder requires w ≠ 0 for every present entry (`NonZeroW`).
- `matrix.js` and `transforms.js` are not part of this model. `Vector3` is the `Vertex` record, and the models' `transform` matrices are never read by the core. The unused slide-0 model list is not kept. Slide 3 keeps only the vertices of its first model, the only ones it reads.
- Renderer.RotationAccumulates: takes angle addition at the two angles as a hypothesis, because cos and sin are parameters rather than the real trigonometric functions.
