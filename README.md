# Timeline scrollbar of the profiler GUI, in Dafny

This project models the horizontal scrollbar that sits under the profiler's timeline view
(`profiler_gui/graphics_scrollbar.cpp`). The scrollbar has four parts:

- **The scrollbar view** (`ProfGraphicsScrollbar`). It keeps a scene range `[minimum, maximum]` and a
  `value`. The value is always clamped so that the slider fits, it moves when the range or the slider
  width changes, and a press/move/release drag machine moves it too. The view also keeps a window
  scale, in pixels per scene unit, that follows the viewport width.
- **Two slider items** (`ProfGraphicsSliderItem`). One is the viewport slider; the other shows the
  chronometer span. Each stores a half-width and a rectangle centred on its position. When it paints,
  it floors the device width at one pixel, keeping the centre, and it draws two inward-pointing
  triangle markers when it is narrower than 8 pixels.
- **The minimap** (`ProfMinimapItem`). It scans the selected thread's block list once for the
  shortest and longest duration. When it paints, it draws one bar per block: the height is graded by
  duration with a 5-pixel floor, and the colour runs from green to red. It changes the painter brush
  only where a bar's colour differs from the previous bar's.
- **The clamp helper.**

Modules:

- `geometry.dfy` (`Geometry`): points, rectangles, the painter command log, `Clamp`, and the layout
  constants (track top −40, track height 80, marker size 8).
- `slider.dfy` (`Slider`): class `SliderItem`, and the rendered-rectangle and marker geometry.
- `minimap.dfy` (`Minimap`): class `MinimapItem` and the bar geometry and colour. It also holds two
  specifications and the lemmas that connect the loop's output to them:
  - `Commands`, the painter log the bar loop writes;
  - `Runs`, a run-length decomposition that serves as the independent reference for brush batching.
- `scrollbar.dfy` (`Scrollbar`): class `GraphicsScrollbar`, the application-wide selection
  (`Globals`), the pure value, range and scale formulas, and two concrete scenarios.

How the C++ is represented:

- `qreal` is an exact `real`.
- Widget pixel positions (`QPoint`) are `int`.
- The Qt mouse-button mask is a `bv32`, with `Qt::LeftButton` = 1.
- Colours (`QRgb`) are numbers. The lemmas `RgbMaskIsRemainder` and `BrushAlphaIsSum` show, on 32-bit
  words, that the source's `0x00ffffff &` and `0xc0000000 |` agree with the remainder and the sum
  used here.
- Painter calls become a returned log of `SetBrush`, `DrawRect` and `DrawPolygon` commands.
- Signals become ghost logs: the scrollbar's `signals`, and the selection's `selectionEvents`.
- These are parameters or method inputs:
  - `QColor::fromHsvF(hue, 0.85, 0.85).rgb()` is the function parameter `hsv`;
  - `mapToScene(pos).x()` is the `sceneX` input of `MousePress`;
  - the viewport `width()` is the `viewportWidth` input of `SetRange`.
- The view transform's horizontal scale is the field `viewScale`. `GraphicsScrollbar.Consistent`
  keeps it equal to `windowScale`, because `onWindowWidthChange` always multiplies it by the ratio of
  the new scale to the old one.

Every state-changing method of `GraphicsScrollbar` keeps `Valid()`:
`minimum <= value <= max(minimum, maximum - sliderWidth)`, together with the structural invariant
`Consistent()`. Every bar-drawing path of the minimap is tied to `Commands`. The lemmas
`CommandsContents`, `RunsExpand` and `RunsMaximal` then state:

- the log draws every bar in order;
- it sets one brush per maximal run of equal colours;
- the runs give back the colour sequence.

## Model

| member | source | states |
|---|---|---|
| `Geometry.Clamp` | profiler_gui/graphics_scrollbar.cpp:37-40 | the result is the lower bound below it, the upper bound when it is above the upper bound but not below the lower one, and the value itself in between; inside the interval whenever it is non-empty |
| `Geometry.ClampIdempotent` | profiler_gui/graphics_scrollbar.cpp:37-40 | clamping an already clamped value changes nothing |
| `Slider.LeftMarker` | profiler_gui/graphics_scrollbar.cpp:50-52 | three points with the tip in the middle and both base points 8 px left of the tip: it points right, inward |
| `Slider.RightMarker` | profiler_gui/graphics_scrollbar.cpp:54-56 | the mirror image: both base points 8 px right of the tip |
| `Slider.CenteredRect` | profiler_gui/graphics_scrollbar.cpp:118-128 | the item rectangle is centred on the item position and twice the half-width wide |
| `Slider.SliderItem.Width` | profiler_gui/graphics_scrollbar.cpp:108-111 | in a valid item, the width is the width of the item rectangle |
| `Slider.RenderedRect` | profiler_gui/graphics_scrollbar.cpp:73-82 | device width `max(width*scale, 1)`; centre `(left + width/2)*scale`, whether floored or not; top and height kept |
| `Slider.MarkersIffNarrow` | profiler_gui/graphics_scrollbar.cpp:76-90 | markers are drawn exactly when `width*scale < 8` |
| `Slider.CollapsedSliderCentred` | profiler_gui/graphics_scrollbar.cpp:76-82 | a slider thinner than one device pixel is drawn exactly one pixel wide, centred on its position |
| `Slider.SliderItem.constructor` | profiler_gui/graphics_scrollbar.cpp:44-60 | markers at the top for the main slider and at the bottom otherwise; width 1 |
| `Slider.SliderItem.SetWidth` | profiler_gui/graphics_scrollbar.cpp:118-122 | `width() == w`, `halfwidth() == w/2`, rectangle `(-w/2, -40, w, 80)` |
| `Slider.SliderItem.SetHalfwidth` | profiler_gui/graphics_scrollbar.cpp:124-128 | `halfwidth() == h`, `width() == 2h`, rectangle `(-h, -40, 2h, 80)` |
| `Slider.SliderItem.Paint` | profiler_gui/graphics_scrollbar.cpp:67-106 | draws the rendered rectangle; the two markers, with tips at its left and right edges and bases 8 px further out, are drawn and stored if and only if its width is below 8; otherwise they are left untouched |
| `Minimap.MaxDuration` | profiler_gui/graphics_scrollbar.cpp:230-239 | the running maximum from 0: at least every width, non-negative, and 0 or some item's width |
| `Minimap.MinDuration` | profiler_gui/graphics_scrollbar.cpp:231-244 | the running minimum from 1e30: at most every width, and 1e30 or some item's width |
| `Minimap.DurationBounds` | profiler_gui/graphics_scrollbar.cpp:230-245 | on a non-empty list, min <= max, each attained by an item unless it stays at its sentinel |
| `Minimap.MinimapItem.constructor` | profiler_gui/graphics_scrollbar.cpp:144-147 | no source, both bounds 0, thread 0 |
| `Minimap.MinimapItem.SetBoundingRect` | profiler_gui/graphics_scrollbar.cpp:212-215 | stores the rectangle |
| `Minimap.MinimapItem.SetSource` | profiler_gui/graphics_scrollbar.cpp:217-257 | always stores the thread id; a null or empty list clears the source and hides the item; any other is stored, its bounds are the one-pass maximum and minimum, and the item is shown |
| `Minimap.MinimapItem.Layout` | profiler_gui/graphics_scrollbar.cpp:166-169 | `coeff * (max - min) == height`; bottom and height taken from the bounding rectangle; scale and minimum passed through |
| `Minimap.BarHeight` | profiler_gui/graphics_scrollbar.cpp:187 | at least 5 and at least `(w - min)*coeff`, and equal to one of them |
| `Minimap.BarHeightExtremes` | profiler_gui/graphics_scrollbar.cpp:168-187 | the shortest block gets 5; the longest gets the full height once that is at least 5 |
| `Minimap.BarHeightMonotone` | profiler_gui/graphics_scrollbar.cpp:187 | a longer block never gets a lower bar |
| `Minimap.BarHeightWithinTrack` | profiler_gui/graphics_scrollbar.cpp:168-187 | every block between the bounds gets a bar between 5 and the track height |
| `Minimap.BarRect` | profiler_gui/graphics_scrollbar.cpp:200 | the bar stands on the bottom edge, starts at `left*scale`, is `max(w*scale, 1)` wide and as high as its bar height |
| `Minimap.Hue` | profiler_gui/graphics_scrollbar.cpp:188-190 | a flat bar is green (0.35); a bar filling the track is red (0) |
| `Minimap.HueFallsWithHeight` | profiler_gui/graphics_scrollbar.cpp:188-190 | a taller bar never gets a greener hue; a hue within the track lies in `[0, 0.35)` |
| `Minimap.BarColor` | profiler_gui/graphics_scrollbar.cpp:190 | the colour has no alpha bits |
| `Minimap.RgbMaskIsRemainder` | profiler_gui/graphics_scrollbar.cpp:190 | masking with `0x00ffffff` keeps the remainder modulo 2^24 |
| `Minimap.BrushAlphaIsSum` | profiler_gui/graphics_scrollbar.cpp:196 | or-ing the alpha into an alpha-free colour adds it |
| `Minimap.PaintBar` | profiler_gui/graphics_scrollbar.cpp:187-201 | one loop pass: a brush change only if the colour differs from the previous one, then the bar |
| `Minimap.MinimapItem.Paint` | profiler_gui/graphics_scrollbar.cpp:159-205 | nothing without a source; otherwise the log is `Commands` of the bars. It draws exactly the bar rectangles, in item order, and changes the brush exactly once per maximal run of equal colours (no change for a first run of colour 0) |
| `Minimap.Commands` | profiler_gui/graphics_scrollbar.cpp:183-202 | the first n bars write between n and 2n commands, and the last one draws bar n's rectangle |
| `Minimap.CommandsRects` | profiler_gui/graphics_scrollbar.cpp:200-201 | the rectangles of the first n bars' log are the first n bar rectangles |
| `Minimap.CommandsBrushes` | profiler_gui/graphics_scrollbar.cpp:173-198 | the brushes of the first n bars' log are one per run of the first n colours, less one for a first run of colour 0 |
| `Minimap.CommandsBrushesStep` | profiler_gui/graphics_scrollbar.cpp:187-198 | one more bar extends the brushes of the log and the run brushes of the colours alike |
| `Minimap.CommandsContents` | profiler_gui/graphics_scrollbar.cpp:173-201 | the whole log draws every bar, in order; when the first colour is not 0, its brush changes are exactly as many as the maximal runs |
| `Minimap.RunsExpand` | profiler_gui/graphics_scrollbar.cpp:192-198 | the run decomposition expands back to the colour sequence (round trip) |
| `Minimap.RunsMaximal` | profiler_gui/graphics_scrollbar.cpp:192-198 | no run is empty and neighbouring runs differ in colour |
| `Scrollbar.ValueCeiling` | profiler_gui/graphics_scrollbar.cpp:363 | the upper bound is `max(minimum, maximum - sliderWidth)` |
| `Scrollbar.ClampValue` | profiler_gui/graphics_scrollbar.cpp:363 | the stored value lies in `[minimum, ValueCeiling]`; a value already inside is kept; one outside goes to the nearer bound |
| `Scrollbar.ClampValueIdempotent` | profiler_gui/graphics_scrollbar.cpp:363 | storing the stored value again changes nothing |
| `Scrollbar.Fraction` | profiler_gui/graphics_scrollbar.cpp:370-371 | 0 when the old range is shorter than 0.001 |
| `Scrollbar.FractionScalesBack` | profiler_gui/graphics_scrollbar.cpp:371 | otherwise the fraction times the old range is the value |
| `Scrollbar.RangeTarget` | profiler_gui/graphics_scrollbar.cpp:379 | after an empty old range, or for an empty new one, the requested value is the new minimum |
| `Scrollbar.SetRangeKeepsRelativePosition` | profiler_gui/graphics_scrollbar.cpp:368-381 | when the old range starts at 0 and no clamping is needed, the value keeps its fraction of the range |
| `Scrollbar.SetRangeShiftedOrigin` | profiler_gui/graphics_scrollbar.cpp:371 | when the old range does not start at 0, the value moves: half-way along [100, 600] becomes 70 % |
| `Scrollbar.WindowScale` | profiler_gui/graphics_scrollbar.cpp:513-520 | 1 for a range shorter than 0.001; positive whenever the viewport is |
| `Scrollbar.WindowScaleFillsViewport` | profiler_gui/graphics_scrollbar.cpp:519 | otherwise scale times range is the viewport width |
| `Scrollbar.GraphicsScrollbar.constructor` | profiler_gui/graphics_scrollbar.cpp:261-310 | range [0, 500], value 10, scale 1, no buttons, not scrolling; the slider is 1 wide; the chronometer and the minimap are hidden, and the minimap is on thread 0; the scene rectangle is `(0, -40, 500, 80)` |
| `Scrollbar.GraphicsScrollbar.Range` | profiler_gui/graphics_scrollbar.cpp:339-342 | the range is what separates the minimum from the maximum |
| `Scrollbar.GraphicsScrollbar.SetValue` | profiler_gui/graphics_scrollbar.cpp:361-366 | value becomes `ClampValue` of the request; the slider centre is `value + halfwidth`; `valueChanged` is emitted; `Valid()` holds |
| `Scrollbar.GraphicsScrollbar.SetRange` | profiler_gui/graphics_scrollbar.cpp:368-381 | range becomes `[a, b]`, and the scene and minimap rectangles follow; value becomes the clamp of `a + f*(b - a)`; the scale is recomputed; `rangeChanged` is emitted before `valueChanged` |
| `Scrollbar.GraphicsScrollbar.SetSliderWidth` | profiler_gui/graphics_scrollbar.cpp:383-387 | slider width `w`; the value is re-clamped against it; `Valid()` holds |
| `Scrollbar.GraphicsScrollbar.SetChronoPos` | profiler_gui/graphics_scrollbar.cpp:391-395 | the chronometer covers exactly `[left, right]` |
| `Scrollbar.GraphicsScrollbar.ShowChrono` | profiler_gui/graphics_scrollbar.cpp:397-400 | the chronometer is visible |
| `Scrollbar.GraphicsScrollbar.HideChrono` | profiler_gui/graphics_scrollbar.cpp:402-405 | the chronometer is hidden |
| `Scrollbar.GraphicsScrollbar.SetMinimapFrom` | profiler_gui/graphics_scrollbar.cpp:409-413 | the minimap gets the thread and its block list (null or empty clears it) |
| `Scrollbar.GraphicsScrollbar.MousePress` | profiler_gui/graphics_scrollbar.cpp:417-430 | buttons are stored. With the left button, dragging starts at the press position and the value jumps to the clamp of `sceneX - minimum - halfwidth`, with the slider centre at `value + halfwidth`; without it, nothing else changes |
| `Scrollbar.GraphicsScrollbar.MouseRelease` | profiler_gui/graphics_scrollbar.cpp:432-438 | buttons are stored and dragging ends; the value stays |
| `Scrollbar.GraphicsScrollbar.MouseMove` | profiler_gui/graphics_scrollbar.cpp:440-453 | with the left button held, the stored position always becomes the new one, and while dragging the value moves by `dx / windowScale`, clamped, and the slider centre follows; otherwise value, signals and slider stay |
| `Scrollbar.GraphicsScrollbar.OnWindowWidthChange` | profiler_gui/graphics_scrollbar.cpp:508-523 | scale becomes `WindowScale`, and the view transform is multiplied by new/old scale, so it stays equal to the scale |
| `Scrollbar.GraphicsScrollbar.OnThreadActionClicked` | profiler_gui/graphics_scrollbar.cpp:497-504 | a thread other than the minimap's becomes the selected thread and is announced; the minimap's own thread changes nothing |
| `Scrollbar.DragScenario` | profiler_gui/graphics_scrollbar.cpp:417-453 | from the initial state with a 50-wide slider, a press at 300 gives 275, a +50 px move gives 325, and the release keeps 325 and ends the drag |
| `Scrollbar.SetRangeScenario` | profiler_gui/graphics_scrollbar.cpp:368-381 | value 100 on [0, 500] becomes 200 on [0, 1000] |

## Left out

- Qt set-up in the scrollbar constructor is not modelled: cache and update modes, scroll-bar
  policies, widget heights, z-values, `setPos`, `centerOn` and the slider colours (`setColor`).
  Only the initial field values are kept, with the item positions at 0.
- The context menu (`contextMenuEvent`) is not modelled. It builds labels from the global block
  table, which this model does not have. Only the click handler `onThreadActionClicked` is modelled.
- `resizeEvent` is not modelled separately. It only forwards the new width to `OnWindowWidthChange`.
- Painter state is not modelled: `save`/`restore`, the inverse-scale transform, the pen, and the
  sliders' own brush (`brush()`). The log records brush changes, rectangles and polygons only.
- `QColor::fromHsvF` is not modelled; it is the parameter `hsv`.
- Floating-point rounding, infinities and NaN are not modelled: all arithmetic is exact.
- `Minimap.MinimapItem.Paint`: requires `maxDuration > minDuration` and a non-zero bounding height when
  a source is set. The source divides by both without a guard, and exact reals have no infinity.
  A one-block list, or blocks that are all equally long, therefore fall outside the model. Inside the
  scrollbar the height is always 80.
- `Scrollbar.GraphicsScrollbar.OnWindowWidthChange`: requires a positive width whenever the range is at
  least 0.001. A zero width would make the scale 0, and the source would then divide by it on the next
  resize or drag. `Scrollbar.GraphicsScrollbar.SetRange` carries the same requirement for its
  viewport width.
- The scrollbar's methods require its structural invariant `Consistent()`. The constructor
  establishes it and every method keeps it. It also assumes the two slider items are distinct
  objects, which the constructor guarantees.
- The minimap holds the block list as a value, so it does not see later changes the owner makes to
  that list through the pointer.
- `SCALING_COEFFICIENT` and its inverse are declared in the file but never used by this code.
- `include/profiler/profiler.h` is not part of this model. It holds declarations and macros only.
- Two places where the code does something other than a reader might expect:
  - `setRange` keeps the fraction `value / oldRange` of the absolute value, where one might expect
    the fraction of the value's offset from the old minimum. The two agree only when the old minimum
    is 0; `SetRangeShiftedOrigin` shows the difference otherwise. The model follows the code.
  - The minimap computes `coeff` without a guard for equal bounds; see `Minimap.MinimapItem.Paint` above.
