# Layer depth order generator: a Dafny model

This project models the core of a generator for "layer depth order"
examples. The generator builds a scene of semi-transparent, overlapping
shapes, each with a layer index (0 is the back-most). It then produces:

- an overlapping render, drawn back to front (the puzzle);
- a separated render, which puts the shapes side by side, front-most on the
  left, each with its rank number below it (the answer);
- optionally, the frame list of a transition video between the two.

Images are modelled as values that record what was drawn and in what order,
not as pixels. An `Image` holds its size, its opaque background and a list of
commands. A command is either `Paste(shape, outline)`, which composites one
shape at the centre it was drawn at, or `Label(x, y, rank, fill)`. The
renderers draw on a mutable `Canvas` object. `Canvas.Flatten`, the
conversion to RGB, turns it into an `Image`.

The random choices are inputs to the model:

- the shuffled copy of the palette;
- for each shape, its offsets from the centre, its size and its kind;
- whether a video encoder is available.

A scene is then a function of these inputs (`SceneGenerator.Scene`), and
`SceneGenerator.GenerateTaskData` is proved to build exactly that scene.

Modules, leaves first:

- **Shapes** (`shapes.dfy`): colours, kinds, shapes, the configuration and its defaults.
- **Geometry** (`geometry.dfy`): the box and the triangle vertices that `_draw_shape` computes.
- **Drawing** (`drawing.dfy`): commands, images and the `Canvas` class.
- **Ordering** (`ordering.dfy`): `sorted(..., key=layer[, reverse=True])`, modelled as a stable insertion sort.
- **SceneGenerator** (`scene.dfy`): `_generate_task_data`.
- **Layout** (`layout.dfy`): the spacing formula and the slot positions.
- **Render** (`render.dfy`): `_render_overlapping` and `_render_separated`.
- **Animation** (`animation.dfy`): easing, interpolation and the frame list of `_generate_video`.
- **TaskGenerator** (`generator.dfy`): `generate_task_pair`, and lemmas that tie the three outputs together.

Integer notes:

- Python's `//` is floor division. Every divisor in the core is positive
  (`2`, and `n + 1` with `n >= 0`), and for a positive divisor Dafny's
  Euclidean `/` gives the same result. So `/` is used directly, even when the
  available width is negative.
- `int()` on a coordinate truncates toward zero. It is modelled exactly as
  `Animation.Trunc`.

Two behaviours of the code that the model follows exactly:

- `_generate_task_data` raises on `i % len(available_colors)`
  (src/generator.py:77) when the palette is empty and there is a shape to
  colour. The model returns `None` in exactly that case.
- The transition frames paint front to back (src/generator.py:211 and
  238-250). The hold frames before them show the overlapping render,
  painted back to front. `FirstTransitionFrameReversesOverlapping` proves
  that at the switch the same shapes sit at the same positions, but in the
  opposite paint order.

## Model

| member | source | states |
|---|---|---|
| `Geometry.Half` | src/generator.py:106 | `size // 2` is the floor half: `2h <= size < 2h + 2` |
| `Geometry.BoxAround` | src/generator.py:106-113 | the box is centred on the drawn point, with sides `2 * (size // 2)` |
| `Geometry.OutlineOf` | src/generator.py:96-120 | circle gives an ellipse, square a rectangle, triangle a polygon; the first two use the box `[x-h, y-h, x+h, y+h]` around the offset centre |
| `Geometry.TriangleInBox` | src/generator.py:114-120 | apex `(x, y-h)` on the box's top edge; base corners `(x-h, y+h)` and `(x+h, y+h)` at its bottom corners; isosceles; all three vertices inside the box, which is the tightest one around them |
| `Geometry.OffsetTranslates` | src/generator.py:96-97 | drawing with an offset is drawing the shape moved by that offset |
| `Drawing.PasteCommand` | src/generator.py:94-123 | a paste holds the shape moved to the drawn centre, with the outline of that centre |
| `Drawing.Pastes` | src/generator.py:131-133 | drawing every shape in turn makes one step per shape, each pasting exactly that shape, unmoved, with its own outline |
| `Drawing.Canvas.constructor` | src/generator.py:128 | a new canvas has the given size and background and nothing drawn on it |
| `Drawing.Canvas.DrawShape` | src/generator.py:94-123 | drawing a shape appends exactly one paste command and changes nothing else |
| `Drawing.Canvas.DrawLabel` | src/generator.py:186-187 | drawing a rank number appends exactly one label command |
| `Ordering.InsertionPointSplits` | src/generator.py:131 | a shape is inserted after every element with a smaller key and before the first one whose key is not smaller |
| `Ordering.InsertAddsOne` | src/generator.py:131 | insertion adds exactly the new element (multiset) |
| `Ordering.InsertSorted` | src/generator.py:131 | insertion into a sorted sequence keeps it sorted |
| `Ordering.SortByLayerSorts` | src/generator.py:131 | the sort is a permutation of its input and sorted by layer, ascending or descending |
| `Ordering.SortAscendingKeepsOrder` | src/generator.py:131 | shapes already in increasing layer order are unchanged by the ascending sort |
| `Ordering.SortDescendingReverses` | src/generator.py:143 | shapes in increasing layer order come out of `reverse=True` exactly reversed |
| `Ordering.DescendingMirrors` | src/generator.py:143 | element by element: in increasing layer order, index `i` of the descending sort is element `n-1-i` of the input |
| `Ordering.DescendingIsReverseOfAscending` | src/generator.py:131-143 | on such shapes the two sort directions are mirror images |
| `SceneGenerator.GenerateTaskData` | src/generator.py:54-92 | fails exactly when there are shapes and the palette is empty; otherwise returns `Scene` and the count |
| `SceneGenerator.SceneLayers` | src/generator.py:70-86 | shape `i` has layer `i`; the set of layers is exactly `{0, …, n-1}`; no two shapes share a layer |
| `SceneGenerator.SceneIncreasing` | src/generator.py:85 | layers strictly increase along the scene |
| `SceneGenerator.SceneColors` | src/generator.py:65-66 | shape `i` has colour `shuffled[i mod len]`, always a palette colour |
| `SceneGenerator.SceneInRange` | src/generator.py:56-75 | with draws from the configured ranges: the count is within `[min, max]`; each `x`/`y` is within 60 of `width // 2` / `height // 2`; each size is within the configured range |
| `SceneGenerator.ColorsRepeat` | src/generator.py:77 | with more shapes than colours, shape `k` and shape `k + len(palette)` have the same colour |
| `SceneGenerator.ColorsDistinct` | src/generator.py:65-77 | with a palette without repeats and no more shapes than colours, all shape colours differ |
| `Layout.Spacing` | src/generator.py:147-149 | `spacing` is the floor of `(width - 80) / (n + 1)`: `s(n+1) <= width - 80 < (s+1)(n+1)`; the divisor is never zero |
| `Layout.SlotsEvenlySpaced` | src/generator.py:175 | slot `i` is at `40 + spacing * (i + 1)`: the first is one spacing right of the margin, and consecutive slots are one spacing apart |
| `Layout.SlotsIncreasing` | src/generator.py:174-176 | with a positive spacing the slot `x` strictly increases with `i` |
| `Layout.SlotsInsideMargins` | src/generator.py:147-149 | on a canvas at least two margins wide every slot keeps a spacing of room inside both margins |
| `Layout.SingleShapeCentred` | src/generator.py:147-149 | one shape goes to `width // 2`, the horizontal centre |
| `Layout.ThreeShapesOn512` | src/generator.py:147-149 | `n = 3`, width 512: spacing 108, slots 148, 256, 364 |
| `Render.RenderOverlapping` | src/generator.py:125-135 | the overlapping render is `OverlappingImage`: the pastes of the ascending sort, at the shapes' own positions |
| `Render.RenderSeparated` | src/generator.py:137-189 | the separated render, whose spacing is computed inline, is `SeparatedImage`: each shape of the descending sort at its slot, followed by its rank label |
| `Render.SeparatedCommandsAt` | src/generator.py:174-187 | step `2i` pastes the `i`-th front-to-back shape at slot `i`; step `2i+1` writes label `i+1` at `(x-5, height//2 + size//2 + 10)` |
| `Render.OverlappingBackToFront` | src/generator.py:130-133 | every shape is pasted once, unmoved, in non-decreasing layer order |
| `Render.SeparatedFrontToBack` | src/generator.py:143-187 | shapes are pasted in non-increasing layer order, each a permuted scene shape moved to slot `i` at mid height and labelled `i+1` |
| `Animation.TruncTowardZero` | src/generator.py:247-248 | `int()` truncates toward zero |
| `Animation.RenderTransitionFrame` | src/generator.py:235-252 | one transition frame pastes each given shape, in the order given, at its interpolated and truncated position |
| `Animation.TransitionFrameFrontToBack` | src/generator.py:211-250 | every transition frame pastes each shape of the descending sort once, keeping its layer, colour, kind and size, with layers never increasing (front to back) |
| `Animation.GenerateVideo` | src/generator.py:206-256 | frame count `5 + 25 + 2*5 = 40`; the first 5 are the initial image; frame `5+k` is transition frame `k`, with its targets from an independent copy of the layout; the last 10 are the final image |
| `Animation.EaseEndpoints` | src/generator.py:230-233 | eased progress is 0 at `k = 0` and 1 at `k = A-1` |
| `Animation.EaseIncreasing` | src/generator.py:230-233 | eased progress stays within `[0, 1]` and strictly increases over the transition frames |
| `Animation.EaseDecelerates` | src/generator.py:233 | each step of eased progress is smaller than the one before (ease-out) |
| `Animation.LerpBetween` | src/generator.py:243-244 | for progress in `[0, 1]` the interpolated coordinate lies between start and end |
| `Animation.TruncWhole` | src/generator.py:247-248 | truncating a whole coordinate returns it unchanged |
| `Animation.InterpolatedEnds` | src/generator.py:243-248 | at progress 0 a shape keeps its position; at progress 1 it is exactly at its target |
| `Animation.FirstTransitionFrameAtScenePositions` | src/generator.py:238-250 | at `k = 0` every shape is at its scene position |
| `Animation.LastTransitionFrameAtSlots` | src/generator.py:219-250 | at `k = A-1` every shape is at its layout slot |
| `TaskGenerator.GenerateTaskPair` | src/generator.py:32-52 | fails exactly when the scene generator fails; otherwise the first image is the overlapping render of the scene and the final image its separated render; frames are present iff videos are enabled and an encoder exists; there are 40 frames: 5 of the first image, the 25 transition frames, then 10 of the final image |
| `TaskGenerator.OverlappingOfLayered` | src/generator.py:131-133 | for a scene layered by index, step `i` of the overlapping render pastes shape `i`, of layer `i` |
| `TaskGenerator.SeparatedOfLayered` | src/generator.py:143-187 | for such a scene, slot `i` holds the shape of layer `n-1-i` at `SlotX(i)`, labelled `i+1` |
| `TaskGenerator.SeparatedLeftIsFront` | src/generator.py:174-176 | with a positive spacing, a shape is further left iff it is further front: layer `n-1` is leftmost and layer 0 rightmost |
| `TaskGenerator.LastTransitionFrameMatchesSeparated` | src/generator.py:174-223 | the last transition frame pastes exactly what the separated render pastes, in the same order. The two inline copies of the layout (lines 174-176 and 215-223) are each proved equal to `SlotX` by the contracts of `Render.RenderSeparated` and `Animation.GenerateVideo`; this lemma connects the two specifications they are proved against |
| `TaskGenerator.FirstTransitionFrameReversesOverlapping` | src/generator.py:131-211 | the first transition frame pastes the overlapping render's shapes at the same positions, in reverse paint order |
| `TaskGenerator.DefaultScenesDistinctAndSpaced` | src/config.py:24-37 | under the defaults every possible scene has distinct colours and a positive spacing |

## Left out

- Pixels: rasterisation, alpha compositing, the full-canvas temporary layer that `_draw_shape` pastes, and the two-pixel black outline. These are drawing-library work. A paste records the shape (its colour included) and its outline geometry.
- The FRONT/BACK header text, the arrow, and the font loading with its fallback: presentation that depends on the environment. The rank labels are kept. Their text `str(i + 1)` is kept as the number `i + 1`, and the font is not modelled.
- The video encoder, its availability check, the temporary directory and the returned video path: I/O. Availability is a parameter. The task pair records the frame list handed to the encoder, not whether encoding succeeded.
- Random number generation: `randint`, `choice` and `shuffle` become inputs. The shuffled palette is only required to be a permutation of the palette. The pseudo-random source and the uniform distribution of the draws are not modelled.
- Floating point: progress, easing and interpolation use exact `real` arithmetic. Rounding of Python floats is not modelled; at the two endpoints the float results are exact.
- Prompt selection (`get_prompt`) and the task data's `"type"` field: a fixed list of strings picked at random.
- `_render_initial_state` and `_render_final_state`: one-line wrappers, modelled by calling the renderers directly.
- The renderer and generator base classes from the `core` package, which is not modelled. The pair container is modelled only as the `TaskPair` datatype.
- Configuration validation and `video_fps`: validation belongs to the configuration layer, and `video_fps` is only read by the encoder.
- Drawing.Canvas.Flatten: `convert('RGB')` is modelled as the identity on what was drawn, because dropping alpha is pixel work.
- `_draw_shape`'s fall-through for an unknown shape type: it cannot happen, because `Kind` has exactly the three kinds.
- Ordering.SortByLayerSorts: stability of the whole sort (equal layers keep their input order) is not stated; `InsertionPointSplits` states it for one insertion. Generated scenes never have equal layers.
