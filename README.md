# Shodo brush engine in Dafny

This project models the ink-brush engine of the Shodo drawing surface, a calligraphy canvas. A press with a brush starts a stroke. While the pointer rests, a growth timer widens the dot, like ink pooling on paper. Each accepted move thins the brush according to its speed, smooths the width, records a sample, and paints a midpoint-chained quadratic segment with a disc at the joint. A press with the stamp tool paints a seal box and its glyphs, which are laid out by the length of the seal text. Release ends the stroke and exports a snapshot. Clear repaints the paper and empties the stroke history.

The model paints nothing. Every canvas call the engine makes is appended to a log of paint operations (`PaintLog.PaintOp`), and the properties of what gets painted are stated over that log.

| module (file) | models |
|---|---|
| `Types` (types.dfy) | the tool enum, the `Point` sample record, UTF-16 code units (types.ts) |
| `JsMath` (js_math.dfy) | `Math.min`, `Math.max`, `Math.pow(_, 2)` over exact reals |
| `Geometry` (geometry.dfy) | `midPointBtw`, `distanceBetween`, `isOutOfBounds` (utils/drawingUtils.ts) |
| `BrushConfig` (brush_config.dfy) | the `BRUSH_CONFIG` table (constants.ts) |
| `BrushDynamics` (brush_dynamics.dfy) | the width arithmetic of the growth tick and of `moveStroke`, as pure functions |
| `PaintLog` (paint_log.dfy) | the paint-operation log |
| `StampLayout` (stamp_layout.dfy) | the glyph layout and font choice of `drawStamp` |
| `Canvas` (canvas.dfy) | the `Canvas` component's handlers, as class `Canvas.Canvas` with one field per piece of state |

The state of class `Canvas.Canvas` is `isDrawing` (`drawing`), whether `growthTimerRef` holds a live interval (`timerActive`), `currentWidthRef` (`width`), `pointsRef` (`points`) and the paint log. The growth interval's closure captures the brush and the press point of the press that created it, so the class also keeps these (`timerTool`, `growthAt`). The props `tool` and `stampText` are fields that the caller sets. Three ghost fields support the proofs: `strokeStart` is where the current stroke begins in the log, `strokeTool` is the brush the stroke was started with, and `oneBrush` says that a stroke was started and the tool has not changed since. `Valid()` holds the invariants every handler keeps:
- the timer runs only during a stroke and before its first accepted move, so the history then holds at most one sample;
- while the timer runs, the width lies at or above the brush minimum and less than one growth step above its maximum;
- while the timer runs, the single sample sits at the press point and has the current width;
- a stroke of `n >= 2` samples has painted exactly `n - 2` curves;
- in a stroke drawn with one brush, the current width and every sample width lie in that brush's band `[minWidth, maxWidth + growthRate)`.

Time enters as an explicit timestamp parameter. The `setInterval` callback is the method `GrowthTick`, which acts only while the timer is live. `Math.sqrt` is not computed. `MoveStroke` receives the distance `dist` together with the fact `dist >= 0 && dist * dist == dx * dx + dy * dy` (`Geometry.IsDistanceBetween`). All numbers are exact reals.

Where the code differs from what one would expect, the model follows the code:
- Dwell growth adds `growthRate` whenever the width is below `maxWidth` and does not clamp afterwards. The thin brush lands on 12 exactly. The thick brush stops at 45.5, above its maximum of 45. So the width of a live stroke is not always within the brush's range. For a stroke drawn with one brush it stays below `maxWidth + growthRate`.
- The press reads the brush table for the tool selected at the press (components/Canvas.tsx:170), and each move reads it again for the tool selected at the move (components/Canvas.tsx:248). If the tool changes to another brush mid-stroke, the move smooths the old width towards the new brush's range. For example, a thin-brush stroke at width 2 continued with the thick brush moves to `2 * 0.7 + 8 * 0.3 = 3.8`. That is wider than before and below the thick brush's minimum of 8. In the other direction, a thick-brush stroke grown to width 14 and continued with the thin brush moves to `14 * 0.7 + 12 * 0.3 = 13.4`, above the thin band's bound of 12.5. So neither the band bound nor "a move never thickens" holds across a tool switch. The model keeps this behaviour, and `Valid` states the band only while `oneBrush` holds.
- `timeDiff || 1` replaces only a zero time gap. A negative gap is used as it is, and the monotonicity lemmas assume a non-negative gap.
- Release keeps the history: `endStroke` never resets `pointsRef` (components/Canvas.tsx:308-321), so the samples of a finished stroke stay until the next press or clear. `EndStroke` does not modify `points`.
- Clear leaves the drawing flag, the width and the timer as they are. A tick after a clear still widens the brush and paints, but updates no sample.
- A move after a clear in the middle of a stroke would read a sample that does not exist (a run-time error in the component). `MoveStroke` requires a non-empty history while drawing.

## Model

| member | source | states |
|---|---|---|
| `JsMath.Min` | components/Canvas.tsx:252-255 | the result is one of the arguments and at most both |
| `JsMath.Max` | components/Canvas.tsx:252-255 | the result is one of the arguments and at least both |
| `JsMath.SquareSign` | utils/drawingUtils.ts:4 | a square is zero for zero and positive otherwise |
| `Geometry.MidPointBtw` | utils/drawingUtils.ts:12-19 | each field of the midpoint is the average `(a + b) / 2` of the two inputs' fields |
| `Geometry.MidPointSymmetric` | utils/drawingUtils.ts:12-19 | the midpoint does not depend on argument order |
| `Geometry.MidPointOfSelf` | utils/drawingUtils.ts:12-19 | the midpoint of a sample with itself is that sample |
| `Geometry.MidPointBetween` | utils/drawingUtils.ts:14-17 | every midpoint field lies between the inputs' min and max |
| `Geometry.MidPointWidthWithin` | utils/drawingUtils.ts:16 | a midpoint width keeps any bounds both input widths keep |
| `Geometry.SquaredDistance` | utils/drawingUtils.ts:3-5 | the quantity under the square root is non-negative |
| `Geometry.DistanceUnique` | utils/drawingUtils.ts:3-5 | two samples have at most one distance |
| `Geometry.DistanceSymmetric` | utils/drawingUtils.ts:3-5 | the distance is symmetric |
| `Geometry.DistanceZeroIff` | utils/drawingUtils.ts:3-5 | the distance is zero exactly when x and y coincide |
| `Geometry.DistanceIgnoresWidthAndTime` | utils/drawingUtils.ts:3-5 | the distance does not read widths or times |
| `Geometry.IsDistanceBetween` | utils/drawingUtils.ts:3-5 | `d` is the distance exactly when it is non-negative and its square is the squared distance; then neither coordinate gap exceeds `d` |
| `Geometry.NoiseThreshold` | components/Canvas.tsx:241-245 | the noise test `dist < 2` holds exactly when the squared distance is below 4 |
| `Geometry.IsOutOfBounds` | utils/drawingUtils.ts:22-24 | a position is inside exactly when `0 <= x <= width` and `0 <= y <= height` |
| `Geometry.CornersAreInside` | utils/drawingUtils.ts:22-24 | the four corners of the surface count as inside |
| `BrushConfig.Profile` | constants.ts:4-17 | both brushes have `0 < minWidth < maxWidth`, positive growth rate and positive velocity factor |
| `BrushConfig.ThickDominatesThin` | constants.ts:4-17 | the thick brush's minimum and maximum exceed the thin brush's (8 > 2, 45 > 12) |
| `BrushConfig.ThinRangeIsWholeSteps` | constants.ts:12-14 | the thin brush reaches its maximum in exactly 20 growth steps |
| `BrushConfig.ThickRangeIsNotWholeSteps` | constants.ts:5-7 | no number of growth steps takes the thick brush from 8 to exactly 45 |
| `BrushDynamics.GrowthStep` | components/Canvas.tsx:189-190 | with a non-negative growth rate a tick never narrows the brush, and a width at or above the maximum is left as it is |
| `BrushDynamics.GrowthNeverShrinks` | components/Canvas.tsx:189-190 | a tick never narrows the brush, and widens it exactly when the width is below the maximum |
| `BrushDynamics.GrowthStaysBelowOvershoot` | components/Canvas.tsx:189-190 | a width below `maxWidth + growthRate` stays below it after a tick |
| `BrushDynamics.Grown` | components/Canvas.tsx:187-205 | the width after `k` ticks is never below the starting width |
| `BrushDynamics.GrownBounds` | components/Canvas.tsx:187-205 | across any number of ticks the width never falls and stays below `maxWidth + growthRate` |
| `BrushDynamics.GrownMonotone` | components/Canvas.tsx:187-205 | holding longer never gives a narrower brush |
| `BrushDynamics.ThinBrushDwell` | components/Canvas.tsx:187-205 | after k ticks the thin brush has width `min(12, 2 + 0.5k)` |
| `BrushDynamics.ThickBrushDwell` | components/Canvas.tsx:187-205 | after k ticks the thick brush has width `8 + 1.5k` for k up to 25, and 45.5 after that |
| `BrushDynamics.ThickBrushOvershoots` | components/Canvas.tsx:189-190 | from 25 ticks on, the thick brush rests at 45.5, above its maximum of 45 |
| `BrushDynamics.TargetWidth` | components/Canvas.tsx:252-255 | the target width lies within the brush's range |
| `BrushDynamics.Velocity` | components/Canvas.tsx:247 | speed is non-negative when distance and time gap are; a zero gap counts as 1 ms, so the speed is the distance itself |
| `BrushDynamics.VelocityMonotoneInDistance` | components/Canvas.tsx:247 | over the same gap, a longer move is a faster one, a zero gap counting as 1 ms |
| `BrushDynamics.TargetAntitoneInVelocity` | components/Canvas.tsx:252-255 | a faster move never gives a larger target width |
| `BrushDynamics.SmoothedWidth` | components/Canvas.tsx:258 | the smoothed width lies between the old width and the target width |
| `BrushDynamics.MoveWidth` | components/Canvas.tsx:247-258 | a width in the brush's band stays in the band after any accepted move, whatever the speed or the sign of the time gap |
| `BrushDynamics.SmoothedAntitoneInVelocity` | components/Canvas.tsx:252-258 | the new width is non-increasing in velocity |
| `BrushDynamics.FasterMoveIsThinner` | components/Canvas.tsx:241-258 | of two moves from the same width over the same gap, the longer one leaves the brush no wider |
| `BrushDynamics.MoveNeverThickens` | components/Canvas.tsx:247-258 | from any width at or above `minWidth`, the new width lies between `minWidth` and the old width, even after an overshoot |
| `BrushDynamics.MoveStaysInRange` | components/Canvas.tsx:252-258 | a width inside the brush's range stays inside it after a move of any speed |
| `BrushDynamics.ZeroGapCountsAsOne` | components/Canvas.tsx:247 | a zero time gap gives the same width as a 1 ms gap |
| `StampLayout.StampFontSize` | components/Canvas.tsx:117 | in a box of positive side the font size is positive and smaller than the side |
| `StampLayout.SealText` | components/Canvas.tsx:120-133 | the seal shows a prefix of its text: all of it exactly when it has at most four code units, and otherwise three units |
| `StampLayout.StampGlyphs` | components/Canvas.tsx:117-133 | 4 glyphs for 4 code units, 2 for 2, otherwise 1, each with the length-dependent font size |
| `StampLayout.StampOps` | components/Canvas.tsx:92-133 | a stamp paints 5, 3 or 2 operations by text length: the box at the press point first, then only glyphs of the length-dependent font; they spell the seal text, their offsets balance around the press point, and no curve is painted |
| `StampLayout.StampSpellsText` | components/Canvas.tsx:120-133 | the glyphs spell the whole text for lengths 2 and 4, and otherwise its first at most 3 code units |
| `StampLayout.StampGlyphsInsideBox` | components/Canvas.tsx:120-133 | every glyph offset is within a quarter of the box side from the centre |
| `StampLayout.StampLayoutCentred` | components/Canvas.tsx:120-133 | the glyph offsets sum to zero on both axes |
| `StampLayout.StampGridOrder` | components/Canvas.tsx:120-125 | four units fill the 2x2 grid in reading order at `(±s/4, ±s/4)` with font `s/2.2` |
| `StampLayout.StampPairOrder` | components/Canvas.tsx:126-129 | two units stack at `(0, -s/4)` then `(0, s/4)` with font `s/1.6` |
| `StampLayout.StampGlyphsApart` | components/Canvas.tsx:120-133 | no two glyphs of a stamp share a position |
| `StampLayout.LongTextGetsSmallerFont` | components/Canvas.tsx:117 | texts longer than 2 units get a strictly smaller font than shorter ones |
| `StampLayout.StampConstants` | constants.ts:19 | with the 60-pixel stamp, the offsets are 15 and the fonts are 60/2.2 and 37.5 |
| `Canvas.SegmentOps` | components/Canvas.tsx:263-305 | one curve and then one joint disc centred on the curve's control point with the curve's width as diameter |
| `Canvas.SegmentsChain` | components/Canvas.tsx:285-292 | each new curve starts exactly where the previous segment's curve ended |
| `Canvas.SegmentWithinSamples` | components/Canvas.tsx:282-297 | a curve's ends lie between the neighbouring samples, and its width keeps any bounds all samples keep |
| `Canvas.WidthsInBand` | components/Canvas.tsx:187-261 | the current width and every sample width of a stroke lie in one brush's band |
| `Canvas.SampleKeepsBand` | components/Canvas.tsx:258-261 | an accepted move whose new width is in the band keeps the whole stroke in the band |
| `Canvas.GrowthKeepsBand` | components/Canvas.tsx:189-201 | a tick whose new width is in the band keeps the whole stroke in the band, the resized newest sample included |
| `Canvas.Canvas.Valid` | components/Canvas.tsx:142-306 | the timer runs only early in a stroke, with at most one sample at the press point and a width in the timer brush's band; a stroke of `n >= 2` samples has painted `n - 2` curves since its press (the count starts where `StartStroke` left the log); a one-brush stroke keeps all widths in that brush's band |
| `Canvas.Canvas.constructor` | components/Canvas.tsx:16-71 | a mounted surface is idle with no timer, width 0 and an empty history; the clear effect's run on mount has painted the background once |
| `Canvas.Canvas.SelectTool` | components/Canvas.tsx:6-13 | the tool prop changes and the invariants still hold; selecting a different tool ends the one-brush tracking of the current stroke |
| `Canvas.Canvas.SetStampText` | components/Canvas.tsx:6-13 | the stamp-text prop changes and the invariants still hold |
| `Canvas.Canvas.DrawStamp` | components/Canvas.tsx:74-139 | appends the stamp's operations and exactly one snapshot, keeps the stroke's curve count, and changes nothing else |
| `Canvas.Canvas.StartStroke` | components/Canvas.tsx:142-206 | stamp tool: appends the stamp's operations and one snapshot, with no change to flag, width, timer or history; brush: drawing, width `minWidth`, one sample of width `minWidth`, one dot of radius `minWidth/2`, timer restarted for this point and brush, a one-brush stroke begins, and its curve count starts at the log's end as it stood at the press; the stamp path leaves that start where it was |
| `Canvas.Canvas.GrowthTick` | components/Canvas.tsx:187-205 | a live timer below the maximum adds one growth step, paints one disc at the original press point and gives the newest sample the new width; otherwise nothing changes; width never decreases; the invariants, the one-brush band included, still hold |
| `Canvas.Canvas.MoveStroke` | components/Canvas.tsx:208-306 | not drawing or stamp tool: no change; otherwise the timer is cancelled first; under 2 px nothing else changes; an accepted move sets the smoothed width, appends exactly one sample and paints one segment once there are 3 samples; with a forward time gap and an old width at or above the current brush's minimum, the width never grows; in a one-brush stroke the curve it paints has a width in the brush's band |
| `Canvas.Canvas.PaintSegment` | components/Canvas.tsx:263-305 | appends exactly the newest segment's curve and joint disc, adding one curve to the stroke's count |
| `Canvas.Canvas.EndStroke` | components/Canvas.tsx:308-321 | a no-op when not drawing; otherwise drawing stops, the timer is cancelled and exactly one snapshot is appended |
| `Canvas.Canvas.Clear` | components/Canvas.tsx:57-71 | repaints the background and empties the history; the flag, the width and the timer are unchanged |

## Left out

- React and DOM glue. This covers hooks, JSX, `preventDefault`, `getBoundingClientRect`, and the touch and mouse coordinate extraction (components/Canvas.tsx:148-161, 216-228). Handlers receive surface-relative `(x, y)`.
- React's asynchronous `setIsDrawing`. It is a field that updates at once.
- The branches taken when the canvas or its 2D context is missing (components/Canvas.tsx:28, 59-61, 77, 146, 177, 193, 214, 318). The model assumes the surface exists.
- `initCanvas`, the device-pixel-ratio scaling and the resize listener (components/Canvas.tsx:25-54). These are DOM work on a real canvas element. The model does not capture that a resize wipes the surface, and the mounted log holds only the clear effect's background, not `initCanvas`'s own fill.
- Rasterisation and styling. The log does not record shadows, blur, colours (the `color` entries of constants.ts), fonts, the rounded-rectangle path, `lineCap` or the discarded `beginPath`/`moveTo` before each segment. Pixel equality of a cleared surface with a blank one is therefore not stated. Only the `Background` operation is.
- JPEG encoding by `toDataURL`. It is the abstract `Snapshot` operation.
- `Date.now` and `setInterval`. Time is a parameter and the 16 ms period is not modelled. A tick is the explicit `GrowthTick` call.
- `Math.sqrt`. `MoveStroke` receives the distance with its defining property.
- IEEE-754 rounding and NaN. All arithmetic is exact over reals.
- `angleBetween` (utils/drawingUtils.ts:7-9). It is `atan2` trigonometry and the engine does not use it.
- `lastUpdateRef` (components/Canvas.tsx:20). Nothing reads it.
- `PAPER_SIZE` and the stamp `padding` (constants.ts:21, 25-28). Nothing reads them.
- App.tsx, PostModal.tsx, SettingsModal.tsx and Toolbar.tsx. These are the user interface and a simulated posting flow, outside the engine.
