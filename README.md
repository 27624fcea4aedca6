# Ruler widgets: a Dafny model

This project models the two Android ruler widgets of the `mylibrary` package,
`StraightRulerView` and `RulerView`, with Android itself removed.

Each widget is a surface that redraws a ruler on every frame:

- a millimetre scale runs along the top edge;
- a second scale is drawn turned through 180 degrees, so it runs along the bottom edge;
- a draggable vertical line carries an indicator.

`StraightRulerView` also shows two readings beside the line:

- centimetres, measured from the left edge;
- inches, measured from the right edge.

What is modelled:

- **Canvas** (`graphics.dfy`). The canvas that `lockCanvas` returns is a class
  that records each drawing call in a `commands` sequence. A widget's `frames`
  field holds every frame it has posted.
- **Widgets** (`straight_ruler_view.dfy`, `ruler_view.dfy`). Each widget is a
  class with the source's mutable fields: `scannedAreaWidth` (the indicator
  position), `indicatorRegion`, `startInIndicatorRegion` and `canvasWidth`.
  Their `Draw` and `OnTouchEvent` methods state the whole new state. `Draw`
  states the posted frame through a specification function `Frame`.
- **Ticks** (`mark_layout.dfy`). The tick loop `drawMark` is the same in both
  widgets, and both use one method for it. That method is proved against the
  function `Marks`. Lemmas then state which ticks exist, where they are and
  how they are labelled.
- **Readings** (`measure.dfy`). This holds the two reading formulas and the
  rule that puts a reading's label left or right of the indicator. It also
  proves that a reading taken on a labelled tick equals the label.
- **Geometry and labels** (`geometry.dfy`, `decimal.dfy`). `geometry.dfy` holds
  Java's `(int)` cast (truncation toward zero), the integer rectangles, the
  hit test of a one-rectangle `Region`, and the drag clamp. `decimal.dfy` holds
  `String.valueOf` for the tick labels.

Coordinates are `real`. Surface sizes are `nat`. Java's integer divisions by 2
are applied to non-negative values, so Dafny's `/` gives the same result.
`Region.contains(x, y)` on a region built from one `Rect` is half-open:
`left <= x < right` and `top <= y < bottom`. So an empty rectangle contains
no point.

Three behaviours of the code differ from what a ruler widget is usually expected to do. The model follows the code:

- **Number of ticks.** `drawMark` loops while `i < width / unit`. That is a
  float comparison, so it draws `ceil(width / unit)` ticks, not
  `floor(width / unit)`. When the width is not a whole number of units, the
  tick nearest the right edge is still drawn (`MarkLayout.TickCount`,
  `MarkLayout.MarksExactly`).
- **Drag clamp.** The dragged position is clamped from above only, to the
  canvas width of the previous frame. A move to a negative `x` keeps the
  negative value (`Geometry.UpperClamp`, `OnTouchEvent`).
- **Touch region.** The touch region is recomputed on every frame that draws
  the indicator. Every change of position is followed by a redraw in the same
  event, so the region always surrounds the current position. Both widgets
  keep this as part of `Valid()`.

## Model

| member | source | states |
|---|---|---|
| `Geometry.Trunc` | mylibrary/src/main/java/com/example/mylibrary/widget/StraightRulerView.java:295 | the `(int)` cast rounds toward zero: the result lies within one of `x`, on the same side of zero and no farther from it |
| `Geometry.Contains` | mylibrary/src/main/java/com/example/mylibrary/widget/StraightRulerView.java:350 | `Region.contains` for a one-rectangle region, read as half-open on the right and the bottom (the platform's `Rect` convention, not visible in this repository): a contained point implies a non-empty rectangle |
| `Geometry.UpperClamp` | mylibrary/src/main/java/com/example/mylibrary/widget/StraightRulerView.java:355-358 | the dragged position is the smaller of `x` and the canvas width; there is no lower bound |
| `Geometry.CenteredRectGrows` | mylibrary/src/main/java/com/example/mylibrary/widget/StraightRulerView.java:290-314 | a truncated centred rectangle with larger half-extents contains every point of the smaller one |
| `Geometry.CenteredRectHitsCentre` | mylibrary/src/main/java/com/example/mylibrary/widget/StraightRulerView.java:307-313 | the truncated centre of a centred rectangle lies inside it once both half-extents are at least 2 px |
| `Geometry.CenteredRectMissesFar` | mylibrary/src/main/java/com/example/mylibrary/widget/StraightRulerView.java:307-313 | a truncated point 2 px or more beyond the half-width on either side is outside |
| `Decimal.NatToString` | mylibrary/src/main/java/com/example/mylibrary/widget/StraightRulerView.java:255 | `String.valueOf` of a label is a non-empty run of decimal digits that starts with `0` only for the value 0 |
| `Decimal.ParseNatToString` | mylibrary/src/main/java/com/example/mylibrary/widget/StraightRulerView.java:255 | reading a label back as a decimal number gives the value it was printed from |
| `Decimal.NatToStringInjective` | mylibrary/src/main/java/com/example/mylibrary/widget/StraightRulerView.java:255 | distinct label values print as distinct strings |
| `MarkLayout.TickCount` | mylibrary/src/main/java/com/example/mylibrary/widget/StraightRulerView.java:239 | the loop runs the least natural number of times that is not below `width / unit` |
| `MarkLayout.MarksExactly` | mylibrary/src/main/java/com/example/mylibrary/widget/StraightRulerView.java:239-240 | tick `k` is drawn iff its position `k * unit` is strictly less than the canvas width |
| `MarkLayout.MarksEmptyWithoutWidth` | mylibrary/src/main/java/com/example/mylibrary/widget/StraightRulerView.java:239 | a width of 0 or less draws no tick |
| `MarkLayout.MarkKinds` | mylibrary/src/main/java/com/example/mylibrary/widget/RulerView.java:108-117 | tick `k` sits at `k * unit`; it is big iff `k % 10 == 0`, and a big tick's label is `k / 10` in decimal |
| `MarkLayout.MarksAscending` | mylibrary/src/main/java/com/example/mylibrary/widget/StraightRulerView.java:239-240 | ticks are drawn in strictly increasing x order |
| `MarkLayout.LabelCountsBigDivisions` | mylibrary/src/main/java/com/example/mylibrary/widget/StraightRulerView.java:240-242 | a big tick's label is all digits, and ten times the number it reads is the tick's index, so the tick stands that many tens of units from the origin |
| `MarkLayout.DrawSmallMark` | mylibrary/src/main/java/com/example/mylibrary/widget/StraightRulerView.java:249-251 | appends one short line down from the top edge at the tick's x |
| `MarkLayout.DrawBigMark` | mylibrary/src/main/java/com/example/mylibrary/widget/StraightRulerView.java:253-259 | appends a long line and the decimal label, centred on the tick by half its truncated text width and placed below the line |
| `MarkLayout.DrawMark` | mylibrary/src/main/java/com/example/mylibrary/widget/StraightRulerView.java:238-247 | appends exactly the calls for the ticks of `Marks(width, unit)`, in order, one mark per tick |
| `Measure.CmValue` | mylibrary/src/main/java/com/example/mylibrary/widget/StraightRulerView.java:166-168 | the centimetre reading, times 10 mm and converted back to pixels, is the position, measured from the left edge |
| `Measure.InchValue` | mylibrary/src/main/java/com/example/mylibrary/widget/StraightRulerView.java:170-172 | the position plus the inch reading converted to pixels is the canvas width, so the reading is measured from the right edge |
| `Measure.CmValueAtBigMark` | mylibrary/src/main/java/com/example/mylibrary/widget/StraightRulerView.java:166-168 | with the indicator on a big tick of the millimetre pass, the centimetre reading equals the number on that tick's label |
| `Measure.InchValueAtMirroredBigMark` | mylibrary/src/main/java/com/example/mylibrary/widget/StraightRulerView.java:142-147 | with the indicator on the mirror image of a big tick of the tenth-inch pass, the inch reading equals the number on that tick's label |
| `Measure.LabelX` | mylibrary/src/main/java/com/example/mylibrary/widget/StraightRulerView.java:189-193 | a reading goes left of the indicator, ending one gap before it, iff it fits (`anchor > width + gap`), otherwise one gap to its right; with a non-negative gap it never covers the indicator, and it never starts left of the canvas when the indicator is on the canvas |
| `StraightRuler.TouchRegion` | mylibrary/src/main/java/com/example/mylibrary/widget/StraightRulerView.java:307-314 | `getIndicatorRegion`: the region brackets the truncated position and the vertical middle, and is twice the indicator width and height across, up to 2 px of truncation |
| `StraightRuler.CmLabelY` | mylibrary/src/main/java/com/example/mylibrary/widget/StraightRulerView.java:179-188 | baseline of the centimetre reading: in SHOW_BOTH within 1 px of half the gap above the middle, so never below the middle for a non-negative gap; in HIDE_INCH and ALL_CM at most one text height above the middle; 0 for any other mode |
| `StraightRuler.TouchRegionCoversIndicator` | mylibrary/src/main/java/com/example/mylibrary/widget/StraightRulerView.java:290-314 | in layout coordinates, every pixel of the indicator rectangle passed to `drawRect` (half-extents `w/2`, `h/2`) is inside the touch region (half-extents `w`, `h`) |
| `StraightRuler.TouchAtIndicatorGrabs` | mylibrary/src/main/java/com/example/mylibrary/widget/StraightRulerView.java:307-314 | a touch at the line's layout position, at the canvas's vertical middle, is inside the touch region once the indicator is at least 2 px wide and high |
| `StraightRuler.TouchFarFromIndicatorMisses` | mylibrary/src/main/java/com/example/mylibrary/widget/StraightRulerView.java:307-314 | a touch more than the indicator width plus 2 px from the line is outside the touch region |
| `StraightRuler.AreasSplitCanvas` | mylibrary/src/main/java/com/example/mylibrary/widget/StraightRulerView.java:226-232 | while the position is not right of the canvas, every canvas pixel lies in exactly one of the two areas, in the left one iff its x is below the truncated position |
| `StraightRuler.StraightRulerView.constructor` | mylibrary/src/main/java/com/example/mylibrary/widget/StraightRulerView.java:38-44 | the indicator starts at 200 px, with no touch region, no drag, canvas width 0 and no frame |
| `StraightRuler.StraightRulerView.DrawMarkLayer` | mylibrary/src/main/java/com/example/mylibrary/widget/StraightRulerView.java:135-157 | the scale marker, then the millimetre pass, then the turned pass of the mode: tenth-inch for SHOW_BOTH, millimetre again for ALL_CM, none for HIDE_INCH or any other mode |
| `StraightRuler.StraightRulerView.DrawCMValue` | mylibrary/src/main/java/com/example/mylibrary/widget/StraightRulerView.java:174-194 | appends the formatted centimetre reading at `LabelX` of the position, on the baseline the mode selects |
| `StraightRuler.StraightRulerView.DrawInchValue` | mylibrary/src/main/java/com/example/mylibrary/widget/StraightRulerView.java:196-211 | appends, inside a 180-degree turn, the formatted inch reading at `LabelX` of `canvasWidth - position` |
| `StraightRuler.StraightRulerView.DrawMeasureValue` | mylibrary/src/main/java/com/example/mylibrary/widget/StraightRulerView.java:159-164 | the centimetre reading always; the inch reading only in SHOW_BOTH |
| `StraightRuler.StraightRulerView.DrawDraggedArea` | mylibrary/src/main/java/com/example/mylibrary/widget/StraightRulerView.java:226-232 | appends the left area `[0, (int)s)` and the right area `[(int)s, width)`, both full height |
| `StraightRuler.StraightRulerView.DrawDraggableLine` | mylibrary/src/main/java/com/example/mylibrary/widget/StraightRulerView.java:234-236 | appends a full-height line at the position |
| `StraightRuler.StraightRulerView.DrawIndicator` | mylibrary/src/main/java/com/example/mylibrary/widget/StraightRulerView.java:290-300 | paints the half-size indicator and sets the region to the double-size touch region; nothing else changes |
| `StraightRuler.StraightRulerView.Draw` | mylibrary/src/main/java/com/example/mylibrary/widget/StraightRulerView.java:274-288 | posts one frame in the fixed order (background, areas, marks, line and indicator if shown, readings if shown), sets `canvasWidth`, keeps the position and drag flag, and leaves the region current |
| `StraightRuler.StraightRulerView.OnTouchEvent` | mylibrary/src/main/java/com/example/mylibrary/widget/StraightRulerView.java:346-367 | down sets the drag flag to whether the truncated point is in the region; move while dragging sets the position to `UpperClamp(x, old canvasWidth)`, otherwise keeps it, and redraws in both cases, which posts a frame, sets `canvasWidth` and, when the line is shown, moves the region to the new position; up clears the flag; other actions change nothing; always handled |
| `Ruler.TouchAtIndicatorGrabs` | mylibrary/src/main/java/com/example/mylibrary/widget/RulerView.java:97-102 | a touch at the line's layout position, at the canvas's vertical middle, is inside the region once the indicator is at least 4 px wide and high |
| `Ruler.TouchFarFromIndicatorMisses` | mylibrary/src/main/java/com/example/mylibrary/widget/RulerView.java:97-102 | a touch more than half the indicator width plus 2 px from the line is outside the region |
| `Ruler.RulerView.constructor` | mylibrary/src/main/java/com/example/mylibrary/widget/RulerView.java:30-46 | the indicator starts at 200 px, with no region, no drag, canvas width 0 and no frame |
| `Ruler.RulerView.DrawScannedArea` | mylibrary/src/main/java/com/example/mylibrary/widget/RulerView.java:90-93 | appends the rectangle from x 0 to `(int)scannedAreaWidth` and from y 0 to the canvas height |
| `Ruler.RulerView.DrawDraggableLine` | mylibrary/src/main/java/com/example/mylibrary/widget/RulerView.java:95-106 | appends the line and the painted indicator, and sets the region to exactly that painted rectangle |
| `Ruler.RulerView.DrawMarkLayer` | mylibrary/src/main/java/com/example/mylibrary/widget/RulerView.java:74-88 | scale marker, background, scanned area, then always two passes (millimetre, then turned tenth-inch), then line and indicator |
| `Ruler.RulerView.Draw` | mylibrary/src/main/java/com/example/mylibrary/widget/RulerView.java:143-150 | posts one frame (scanned area, mark layer, line and indicator again), sets `canvasWidth`, and leaves the region equal to the painted indicator at the current position |
| `Ruler.RulerView.OnTouchEvent` | mylibrary/src/main/java/com/example/mylibrary/widget/RulerView.java:167-188 | the same transitions as the straight ruler, against the painted indicator as region; a move always leaves the region on the painted indicator at the new position |

## Left out

- The surface lifecycle is not modelled: `lockCanvas` and `unlockCanvasAndPost`, the `surfaceCreated`, `surfaceChanged` and `surfaceDestroyed` callbacks, and the empty `run`. `Draw` takes the surface size as parameters and records the posted frame in `frames`.
- Attribute reading (`TypedArray`), paint set-up and colour parsing are configuration. They are given as `Config` or `Dimensions`, and paints are named by role.
- `dpToPx` and `TypedValue.applyDimension` are platform calls. Their results enter as the configured pixel sizes, and `oneMMToPX` and `oneInchToPX` are required to be positive.
- `getTextBounds` is a platform call. It is the `measure` function given at construction, and it returns non-negative sizes.
- `DecimalFormat("0.00")` has its own rounding mode. It is the opaque `format` function given at construction.
- The background image or colour in `drawBackground` is recorded as one `Background` command. Bitmap decoding is not modelled.
- `canvas.scale(0.97…)` and `canvas.rotate(180…)` are recorded as marker commands, without matrix geometry.
- `Measure.CmValueAtBigMark` and `Measure.InchValueAtMirroredBigMark` are stated in layout coordinates. They do not account for the 0.97 compression or for the integer rotation pivot `width / 2`.
- `StraightRuler.TouchRegionCoversIndicator`, `StraightRuler.TouchAtIndicatorGrabs` and `Ruler.TouchAtIndicatorGrabs` are stated in layout coordinates, the ones the drawing calls receive. The `scale(0.97, 1, width / 2, 0)` at the start of the mark layer is not inside a save/restore pair, so the line and indicator drawn after it appear on screen at `width/2 + 0.97 * (s - width/2)`. The region is tested against raw touch coordinates, so on screen the visible line is offset from the region's centre by `0.03 * |s - width/2|` pixels. For example, a 60 px `RulerView` indicator at position 2300 on a 2400 px canvas is drawn at x = 2267, while its region is [2270, 2330). The model records the scale as a marker command and does not prove anything about on-screen positions.
- Float rounding is not modelled: coordinates are exact reals.
- For a float outside the `int` range, the `(int)` cast saturates, and NaN becomes 0. The model does not cover either case.
- `Log.e` calls are not modelled.
- `StraightRuler.StraightRulerView.OnTouchEvent` requires a touch region to be present on a touch-down. In the source, a touch-down before the first frame that drew the indicator dereferences a null region. The model makes the region a precondition instead of modelling the exception.
- `Ruler.RulerView.OnTouchEvent` has the same precondition, for the same reason.
- With `showDraggableLine` false, `StraightRulerView` never calls `drawIndicator`, so its region stays null for the widget's whole life, and every touch-down in that configuration throws a `NullPointerException`. In the model the region stays `None`, and `StraightRuler.StraightRulerView.OnTouchEvent` cannot be called with a touch-down at all in that configuration.
