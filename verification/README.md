# sdlimdraw circle rasterizers and drawing commands, in Dafny

sdlimdraw wraps an SDL renderer in a small drawing object, `BaseImDraw`. Most
of its methods forward straight to the renderer. The only locally written
algorithms are the three circle rasterizers in `sdlimdraw/sdlext.py`. This
project models those rasterizers and the drawing commands over a renderer
reduced to its current draw colour and a log of the calls made to it.

- `render_circle` (module `Midpoint`) is the midpoint circle algorithm. While
  `x >= y` it draws the eight symmetric images of the offset `(x, y)`. Then it
  takes a y step when the error is not positive, and an x step when the error
  left by that is positive.
- `render_circle_aa` (module `Zingl`) is Alois Zingl's anti-aliased Bresenham
  circle. It walks one quadrant from `(r, 0)` to `(0, -r)` and draws the
  quarter-turn orbit of `(x, -y)`. Around each step it may also draw the
  pixel just outside or just inside the arc. It stops right after drawing the
  batch with `x == 0`.
- `render_circle_aa_fast` (module `FastAA`) is a midpoint variant. It decides
  both of its steps on the error as it was at the head of the loop, so it
  takes exactly one step per pass.
- `aacolor` (module `Blend`) keeps red, green and blue and replaces alpha.
- `BaseImDraw`'s `setcolor`, `line`, `point`, `rect`, `fill` and `circle`
  (module `ImDraw`) act on an immutable `Canvas`. Each returns the canvas it
  leaves, which stands for the `self` that Python returns for chaining.

Each rasterizer is modelled the same way:

- a `State` of the loop variables and `Start(r)`, the state before the first
  pass;
- `Step`, the integer updates of one pass, as a pure function;
- `Run`, the sequence of loop-head states, defined by recursion;
- a method that transcribes the Python loop and proves that it produces
  exactly `Run` and the batches drawn from it.

The lemmas then state what the loop keeps and where it goes:
- the error formula (for example `err == x*x + y*y - r*r` in `render_circle`);
- the bands the error stays in and what they mean geometrically;
- termination and the number of passes;
- the start and end points of the arc;
- the symmetry of every batch.

The anti-aliased variants decide whether to draw a pixel by comparing a
floating-point blend value with 1. The model takes that decision as a
parameter `gate` of type `Gate`. It is called with the pixel's role (on the
arc, outward or inward) and the loop-head `x`, `y` and `err`. So the proofs
hold for every possible outcome of those comparisons.

`color or renderer.color` in the anti-aliased rasterizers is read as "the
colour argument unless it is `None`". `sdl2.ext.Color` defines `__len__`
(always 4), so a `Color` object is never falsy (`ImDraw.BaseColor`).

## Model

| member | source | states |
|---|---|---|
| Geometry.Octants | sdlimdraw/sdlext.py:44-53 | the eight-way batch of render_circle (and of the three batches of render_circle_aa_fast) starts at (cx + x, cy - y), follows with that pixel's reflections in the horizontal line, the vertical line and both, and ends with the coordinate swaps of those four |
| Geometry.OctantsSymmetric | sdlimdraw/sdlext.py:44-53 | the eight pixels of a render_circle batch are closed under reflection in the vertical and horizontal lines through the centre and under swapping the coordinates |
| Geometry.OctantsConcentric | sdlimdraw/sdlext.py:44-53 | every pixel of an eight-way batch is at squared distance x*x + y*y from the centre |
| Geometry.Orbit | sdlimdraw/sdlext.py:89-98 | a render_circle_aa main batch starts at (xm + x, ym - y), each pixel is the previous one turned 90 degrees about the centre, and a fourth turn returns to the first |
| Blend.AAColor | sdlimdraw/sdlext.py:8-9 | aacolor keeps red, green and blue and the alpha becomes the given one |
| Blend.AAColorDefaultRatio | sdlimdraw/sdlext.py:8-9 | aacolor with its default ratio 1 keeps the alpha and so gives back an equal colour |
| Blend.BlendDivisor | sdlimdraw/sdlext.py:139-143 | the blend divisor 2 r - 1 is odd, so it is never zero for any integer r |
| Zingl.DivisorIsBlendDivisor | sdlimdraw/sdlext.py:84-87 | render_circle_aa's res = 1 - err, with err its starting error, is the same divisor 2 r - 1 |
| Midpoint.Step | sdlimdraw/sdlext.py:56-64 | every pass moves y up by at most one and x down by at most one, and x - y strictly falls, so the loop terminates |
| Midpoint.Run | sdlimdraw/sdlext.py:43-64 | the loop makes no pass exactly when x >= y fails at the start, and every pass begins with x >= y |
| Midpoint.ArcTracks | sdlimdraw/sdlext.py:37-64 | at every loop head ty == 2y + 1, tx == 2r - 2x - 1 and err == x*x + y*y - r*r |
| Midpoint.RunInBand | sdlimdraw/sdlext.py:56-64 | from a state with -2x - 1 <= err <= 0, every loop head keeps 0 <= y <= x and that error band, and y rises by exactly one per pass |
| Midpoint.RunShape | sdlimdraw/sdlext.py:56-64 | from such a state x falls by at most one per pass |
| Midpoint.RunEnd | sdlimdraw/sdlext.py:43-64 | from such a state the last offset drawn has x - y <= 1, on or next to the diagonal |
| Midpoint.Arc | sdlimdraw/sdlext.py:37-64 | r <= 0 makes no pass; otherwise at most r passes start at (r - 1, 0) with y == k on pass k and x*x + y*y <= r*r <= (x+1)*(x+1) + y*y, and they end on or next to the diagonal |
| Midpoint.BatchesAreOctants | sdlimdraw/sdlext.py:43-54 | render_circle draws at most max(r, 0) batches, and batch k is the eight images of an offset (x, k) with x >= k >= 0 |
| Midpoint.RenderCircle | sdlimdraw/sdlext.py:30-64 | the loop as written visits exactly the loop-head states of Run from Start(r) and draws one eight-way batch for each |
| Zingl.Step | sdlimdraw/sdlext.py:101-130 | a pass never increases x or y, moves each by at most one, and lowers x + y while x - 1 >= y |
| Zingl.Run | sdlimdraw/sdlext.py:88-130 | the loop terminates from every state with x >= 0 and y <= 0 (each pass lowers x, or keeps x and raises an error that was at most x - 1), with at least one pass, the first at that state; that it ends at x == 0 is Zingl.RunLength |
| Zingl.PassSteps | sdlimdraw/sdlext.py:101-130 | with x > 0 and y <= 0 a pass always steps: an error at most y is at most x - 1, so when x does not step y does |
| Zingl.StepInQuadrant | sdlimdraw/sdlext.py:101-130 | a pass with x > 0 keeps err == (x-1)*(x-1) + (y-1)*(y-1) - r*r, 0 <= x <= r, -r <= y <= 0, 2 - 2x <= err and (x >= 1 ==> err <= 2 - 2y) |
| Zingl.RunTracks | sdlimdraw/sdlext.py:101-130 | the error formula holds at the head of every pass of a run |
| Zingl.RunSteps | sdlimdraw/sdlext.py:99-130 | every pass but the last has x > 0 and moves to a different neighbouring offset |
| Zingl.RunLength | sdlimdraw/sdlext.py:99-130 | the run ends on the pass with x == 0, after at least x + 1 passes and at most one pass per unit of x + y it descends |
| Zingl.RunInQuadrant | sdlimdraw/sdlext.py:84-130 | every loop head of a run stays in the quadrant with the error band, and the last is on the row y == -r |
| Zingl.Arc | sdlimdraw/sdlext.py:84-130 | for r >= 0 the walk starts at (r, 0), ends at (0, -r), stays in 0 <= x <= r, -r <= y <= 0 and makes between r + 1 and 2r + 1 passes |
| Zingl.ArcStraddles | sdlimdraw/sdlext.py:86-130 | on every pass (x, y - 1) lies outside the circle and, while x > 0, (x - 1, y) lies within squared distance r*r + 1 |
| Zingl.NeverReachesAxis | sdlimdraw/sdlext.py:84-130 | from a negative x, no number of passes reaches x == 0, so for a negative radius the integer loop never reaches its exit |
| Zingl.PassBatches | sdlimdraw/sdlext.py:89-130 | each pass first draws the orbit of (x, -y), at most three batches in all, and the last pass (x == 0) draws only that |
| Zingl.PassBatchesShape | sdlimdraw/sdlext.py:99-130 | after the main orbit a pass draws only the outward orbit of (x, 1 - y), exactly when x > 0, x steps and its gate admits it, and the inward orbit of (x - 1, -y), exactly when x > 0, y steps and its gate admits it, the outward one first |
| Zingl.Pass | sdlimdraw/sdlext.py:89-130 | one pass of the loop as written draws exactly PassBatches and, unless x == 0, leaves the loop variables of Step |
| Zingl.RenderCircleAA | sdlimdraw/sdlext.py:67-130 | the loop as written, for r >= 0, visits exactly the loop-head states of Run from Start(r) and draws the batches of each pass in order |
| FastAA.Step | sdlimdraw/sdlext.py:163-206 | a pass takes exactly one step: up in y when the head error is not positive, down in x otherwise, so x - y falls by exactly one |
| FastAA.Run | sdlimdraw/sdlext.py:145-206 | the loop makes no pass exactly when x >= y fails at the start, and every pass begins with x >= y |
| FastAA.PassCount | sdlimdraw/sdlext.py:139-206 | render_circle_aa_fast makes exactly max(r, 0) passes |
| FastAA.BandIsErrorBound | sdlimdraw/sdlext.py:163-206 | with the error formula, the geometric band is exactly 0 <= y <= x and -2x <= err <= 2y |
| FastAA.RunInBand | sdlimdraw/sdlext.py:145-206 | from a state in the band every loop head keeps err == (x-1)*(x-1) + y*y - (r-1)*(r-1) - 1 and stays in the band, and pass k has x - y exactly k below the start |
| FastAA.Arc | sdlimdraw/sdlext.py:139-206 | the walk starts at (r - 1, 0), makes max(r, 0) passes one unit step apart, and every offset lies in the first octant on or outside radius r - 1 and with (x-1, y-1) within squared distance (r-1)*(r-1) + 2 |
| FastAA.PassBatches | sdlimdraw/sdlext.py:146-206 | a pass draws at most two batches, each the octants of (x, y), of the inward pixel (x - 1, y) or of the outward pixel (x, y - 1) |
| FastAA.PassBatchesShape | sdlimdraw/sdlext.py:146-206 | the octants of (x, y) are drawn exactly when their gate admits them, and then first; the inward octants exactly when the head error is not positive and their gate admits them; the outward octants exactly when the head error is positive and their gate admits them |
| FastAA.Pass | sdlimdraw/sdlext.py:146-206 | one pass of the loop as written draws exactly PassBatches and leaves the loop variables of Step |
| FastAA.RenderCircleAAFast | sdlimdraw/sdlext.py:133-206 | the loop as written visits exactly the loop-head states of Run from Start(r) and draws the batches of each pass in order |
| ImDraw.SetColor | sdlimdraw/imdraw.py:66-68 | setcolor makes the renderer's colour the argument and changes neither the log nor the canvas size |
| ImDraw.Line | sdlimdraw/imdraw.py:70-75 | no points issues nothing; otherwise exactly one draw_line with the points and colour as given, nothing else changed |
| ImDraw.Points | sdlimdraw/imdraw.py:77-82 | no points issues nothing; otherwise exactly one draw_point with the points and colour as given, nothing else changed |
| ImDraw.Rects | sdlimdraw/imdraw.py:84-92 | exactly one draw_rect: with the rectangles as given, or with the single rectangle (0, 0, width, height) when none are given |
| ImDraw.Fill | sdlimdraw/imdraw.py:94-102 | exactly one fill: with the rectangles as given, or with the single rectangle (0, 0, width, height) when none are given |
| ImDraw.Circle | sdlimdraw/imdraw.py:113-128 | "no", "fast" and "fancy" issue the batches of render_circle, render_circle_aa_fast and render_circle_aa and leave everything else as it was; any other mode raises ValueError with the source's message and changes nothing; a plain circle of radius r <= 0 leaves the canvas unchanged |
| ImDraw.BaseColor | sdlimdraw/sdlext.py:160 | the colour the anti-aliased rasterizers blend is the colour argument when one is given, else the renderer's current colour |
| ImDraw.PlainCircleOfNonPositiveRadius | sdlimdraw/sdlext.py:37-43 | a plain circle of radius r <= 0 issues no draw call, whatever the colour |
| ImDraw.ApplyEmits | sdlimdraw/imdraw.py:66-102 | each of setcolor, line, point, rect and fill returns the same canvas with at most the one command of its table entry appended, and only setcolor changes the colour |
| ImDraw.ChainEmits | sdlimdraw/imdraw.py:66-102 | a chain of such calls issues every call's commands in call order, keeps the canvas size and leaves the colour of the last setcolor |

## Left out

- Blend values: the floating-point value `i`, the `/1.8` and `*1.1` factors
  and the `r / 2` comparison of `render_circle_aa_fast` are not modelled.
  Whether a blended pixel is drawn is the oracle `gate`, which holds for any
  outcome of those comparisons. The alpha each blended batch is drawn with is
  not modelled either (`ImDraw.Paint.Blended` records only the base colour).
- Blend.AAColor: takes the new alpha as given. The source computes it as
  `int(color.a * ratio)` with a float ratio.
- Zingl.RenderCircleAA: requires r >= 0. For a negative radius the integer
  loop never reaches its `x == 0` exit (`Zingl.NeverReachesAxis`). Whether
  the source then loops for ever or stops with an error depends on how
  `sdl2.ext.Color` treats the alpha it is given, which is not modelled (see
  the next lines).
- ImDraw.Circle: requires r >= 0 for mode "fancy", for the same reason.
- Out-of-range alpha: with res = 2r - 1 < 0 the blend ratio `1 - i` exceeds
  1. The main pixel of render_circle_aa is drawn without a gate, so its ratio
  is not bounded by the model either. What `sdl2.ext.Color` does with an
  alpha outside 0..255 is not modelled.
- `render_geometry` and `BaseImDraw.geometry`: ctypes marshalling into a
  foreign call, `SDL_RenderGeometry`.
- `present`, the `SoftwareImDraw` and `WindowImDraw` constructors,
  `__del__`, `from_pil_image`, `copy_surface` and `save`: SDL surface, window
  and pixel readback.
- `sdlimdraw/imfile.py` (file-system checks and SDL_image codec calls),
  `sdlimdraw/__init__.py` (global SDL initialisation) and the example scripts
  (random demo drawing and file output).
- The renderer is reduced to its draw colour and the list of calls made to
  it. How SDL turns those calls into pixels is not modelled.
- The points and rectangles of `line`, `point`, `rect` and `fill` are
  integers here. Python accepts floats, but these methods only forward them.
- Python's variadic arguments (`*points`, `*rects`) are sequences.
