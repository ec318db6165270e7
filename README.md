# Line pattern distortion engine, in Dafny

LinePatternGeneration draws a square grid of straight lines: `lineCount` horizontal and `lineCount` vertical lines, each sampled at `pointAmount + 1` points. It scatters `pointAmount` random attractor points over the grid and bends every line towards each attractor in turn.

- A horizontal line moves only its points' y coordinates.
- A vertical line moves only its x coordinates.
- The move is the offset to the attractor multiplied by two weights:
  - a lateral "tent" weight over the offset along the line;
  - a falloff weight: an exponential decay times an unclamped linear ramp over the distance across the line.
- The attractors are applied one after another. Each pass works on the output of the previous one, so displacements compound.
- GUI handlers change the parameters and rebuild the pattern.
- An export turns the visible lines into SVG polylines inside a padded viewBox.

This project models that engine, the non-rendering part of `src/main.ts`, and proves properties of the model. One module per part:

| module | file | what it holds |
|---|---|---|
| `Geometry` | `geometry.dfy` | Points, flat `(x, y, z)` position buffers, and the abstract exponential |
| `Falloff` | `falloff.dfy` | `customFalloff` |
| `Distortion` | `distortion.dfy` | `getAttractedLinePoints` per point and per buffer, and its repeated application |
| `Grid` | `grid.dfy` | The lines built by `createHorizontalLines` and `createVerticalLines` |
| `Lines` | `lines.dfy` | The drawn line: a class with a position buffer and a visibility flag |
| `Bounds` | `bounds.dfy` | `getBoundsXY` |
| `Export` | `export.dfy` | The document `exportLinesAsSVG` builds |
| `Engine` | `engine.dfy` | The module-level state as the class `PatternEngine`, one method per handler, and `initPattern`, `resetPattern`, `updatePattern` and `refresh` |

Modelling choices:

- **Numbers** are `real`.
- **`Math.exp`** is a function value (`exp`) that the engine holds. Only `exp(0) = 1` and `exp(x) > 0` are assumed of it (`Geometry.IsExp`).
- **`Math.random()`** is a list of draws `rng` with both values in `[0, 1)`. Every operation that may draw attractors takes it as a parameter.
- **Printing a number as text** is a parameter `fmt` of the export.
- **A line object** (`THREE.Line`) is a `Lines.Line` with its position buffer and its `visible` flag. The engine never edits a buffer in place: `updatePattern` installs a new position attribute. So the buffer is a `seq<real>` field that is reassigned.
- **`getAttractedLinePoints`** fills a fresh array in a loop that steps by 3, as the source does.

Three behaviours of the code are modelled as written:

- **Re-enabling a line set:** the `horizontal` and `vertical` handlers call `initPattern` without `resetPattern` when a set is re-enabled. Lines that already exist are therefore displaced again. `Engine.ApplyEachCompose` shows that the result is the grid displaced by the attractor list twice over.
- **Export bounds:** the export computes its bounds over all lines, hidden ones included (`src/main.ts:314-315`), so hidden lines still widen the viewBox. `Export.ExportAllHidden` shows that a document with no polyline still has a viewBox spanning the hidden lines.
- **Run-away attractors:** the linear ramp of the falloff is not clamped. Take a point whose offset from an attractor along the line (`deltaX` for a horizontal line) is under half the grid span. If its offset across the line (`deltaY` for a horizontal line) exceeds `lineCount / linearFalloff`, it is pushed away from the attractor instead of pulled towards it (`Distortion.MoveDirection`). Beyond half the grid span along the line the tent weight is negative as well, and both directions flip (`Distortion.MoveDirectionOutsideTent`).

## Model

| member | source | states |
|---|---|---|
| `Geometry.PointAt` | src/main.ts:228-229 | Point i of a flat buffer is the triple at offsets 3i, 3i+1 and 3i+2, as the loops stepping by 3 read it |
| `Geometry.Points` | src/main.ts:170 | The position array read as a list of points, one per whole triple |
| `Geometry.Flatten` | src/main.ts:192 | `setFromPoints` writes each point as three consecutive numbers: the buffer holds 3 numbers per point, and point i reads back as the i-th point |
| `Geometry.FlattenPoints` | src/main.ts:192 | Reading a buffer as points and writing them back gives the same buffer |
| `Geometry.PointsFlatten` | src/main.ts:192 | Writing points into a buffer and reading them back gives the same points |
| `Geometry.BufferExtensionality` | src/main.ts:170 | Two buffers of the same length that agree on every point are equal |
| `Falloff.CustomFalloff` | src/main.ts:265-275 | Distance 0 gives weight 1 for any factors; factors 0 and 0 give 1 at any distance; the weight is negative, zero or positive exactly when `distance / maxDistance * linearFactor` is above, equal to or below 1 (the ramp is not clamped) |
| `Falloff.SignOfProduct` | src/main.ts:268-274 | Proof helper for `Distortion.LateralWeight` and `Falloff.CustomFalloff`: a positive factor, such as the exponential part, keeps the sign of the linear part |
| `Distortion.LateralWeight` | src/main.ts:241 | The tent weight is at most 1; it is 1 exactly when the attractor is level with the point; it is positive exactly when the offset is under half the grid span and 0 exactly at half the span |
| `Distortion.CompareRatio` | src/main.ts:241 | Proof helper for `Distortion.LateralWeight`: a non-negative offset over half the grid span is below 1, equal to 1 or 0 exactly when the offset is below, equal to half the span, or 0 |
| `Distortion.TentIsLinear` | src/main.ts:241 | The percentage form `(100 - abs(delta / half * 100)) / 100` equals `1 - abs(delta) / half` |
| `Distortion.Shift` | src/main.ts:247 | The displacement of the moving coordinate: the offset to the attractor times the tent weight times the falloff weight (`deltaY * percentageX * percentageY`, and the x form at line 256) |
| `Distortion.ShiftDirection` | src/main.ts:247 | With no offset or a zero tent the coordinate stays; with weights of the same sign it moves to the attractor's side, and with weights of opposite signs to the far side |
| `Distortion.MoveCoordinate` | src/main.ts:240-259 | The moving coordinate is unchanged when the attractor is level with it, or when the attractor is exactly half the grid span away along the line |
| `Distortion.MoveDirection` | src/main.ts:240-259 | Inside the tent a point moves towards the attractor while within the linear reach (`distance / lineCount * linearFalloff < 1`) and away from it beyond that reach |
| `Distortion.MoveDirectionOutsideTent` | src/main.ts:240-259 | Beyond half the grid span along the line the tent weight is negative: within the linear reach the point is pushed away from the attractor, beyond it the point moves towards it |
| `Distortion.Attract` | src/main.ts:240-259 | One point: z is written as 0; a horizontal line copies x and moves y, a vertical line copies y and moves x; a point level with the attractor is only flattened |
| `Distortion.Attracted` | src/main.ts:225-263 | The new buffer is as long as the input, and its point i is point i of the input moved by `Attract` |
| `Distortion.AttractedKeeps` | src/main.ts:226-258 | Every z is 0; horizontal: every x is copied, and a point with the attractor's y stays put; vertical: the same with x and y swapped |
| `Distortion.ApplyAll` | src/main.ts:166-183 | Applying a list of attractors to one buffer keeps its length and its shape |
| `Distortion.ApplyAllKeeps` | src/main.ts:166-183 | However many attractors pass, the coordinate the orientation keeps never changes, and after at least one pass every z is 0 |
| `Distortion.ApplyAllAppend` | src/main.ts:166-183 | Displacements compound: applying a list and then another is applying their concatenation |
| `Distortion.ApplyAllFixedPoint` | src/main.ts:166-183 | A point of a horizontal line with z = 0 (as every grid point has) that is level with every attractor never moves |
| `Distortion.ApplyAllFixedPointVertical` | src/main.ts:166-183 | A point of a vertical line with z = 0 that is level with every attractor (the same x) never moves |
| `Grid.CurvePoint` | src/main.ts:187-192 | Sample d of the straight curve between two ends, at `d / pointAmount` of the way, with z = 0; sample 0 is the start and sample `pointAmount` the end (the assumed `getPoints` convention) |
| `Grid.LineStart` | src/main.ts:188-202 | The start of line i: (0, i) for a horizontal line, (i, 0) for a vertical one |
| `Grid.LineEnd` | src/main.ts:189-203 | The end of line i: (amount, i) for a horizontal line, (i, amount) for a vertical one |
| `Grid.GridPoints` | src/main.ts:187-191 | `getPoints(pointAmount)` gives `pointAmount + 1` samples; sample d lies `amount * d / pointAmount` along the line at offset i |
| `Grid.CurveIsSample` | src/main.ts:187-191 | Interpolating between the two ends of line i is the per-orientation sample formula |
| `Grid.GridLine` | src/main.ts:184-211 | The buffer of a grid line holds `3 * (pointAmount + 1)` numbers |
| `Grid.GridLineShape` | src/main.ts:184-211 | Line i runs from its start point to its end point; every point has z = 0; horizontal lines have y = i and x in `[0, amount]`, vertical lines the same with x and y swapped; consecutive samples are `amount / pointAmount` apart |
| `Grid.Sample` | src/main.ts:191 | A sample lies in `[0, amount]` along the line: 0 for the first, `amount` for the last |
| `Grid.Step` | src/main.ts:191 | Consecutive samples differ by `amount / pointAmount` |
| `Grid.GridTranspose` | src/main.ts:198-211 | Every point of the vertical grid is the matching point of the horizontal grid with x and y swapped |
| `Lines.Line.constructor` | src/main.ts:192-193 | A new line carries the given buffer and is visible |
| `Lines.SetVisible` | src/main.ts:54-56 | Every line of the list gets the given visibility; no buffer changes |
| `Lines.PositionsAppend` | src/main.ts:314 | The buffers of two concatenated lists are the two lists' buffers one after the other |
| `Bounds.Include` | src/main.ts:288-299 | The four independent comparisons of one point: the new box holds the point, only widens the old box, and each side is the old side or the point's coordinate |
| `Bounds.ScanPoints` | src/main.ts:285-300 | The accumulators after scanning a list of points in order, starting from a given box |
| `Bounds.AllPoints` | src/main.ts:282-287 | The scan order: every line in turn, and within a line every whole triple in order |
| `Bounds.BoundsOf` | src/main.ts:277-305 | The scan over every point of every line from accumulators at 0, with `boundsX = abs(maxx) + abs(minx)` and `boundsY = abs(maxy) + abs(miny)`; the box holds the origin, and `boundsX = maxx - minx`, `boundsY = maxy - miny` |
| `Bounds.ScanPointsBox` | src/main.ts:285-300 | The scan only widens its start box; it covers every scanned point; each side is the start value or some scanned point's coordinate |
| `Bounds.InAllPoints` | src/main.ts:282-285 | Every point of every line is scanned |
| `Bounds.FromAllPoints` | src/main.ts:282-285 | The scan sees nothing but points of the lines |
| `Bounds.BoundsOfSpec` | src/main.ts:277-305 | `minx <= 0 <= maxx` and `miny <= 0 <= maxy`; every point lies in the box; each side is 0 or attained by a point; `boundsX = maxx - minx` and `boundsY = maxy - miny`, equal to `abs(maxx) + abs(minx)` and `abs(maxy) + abs(miny)`; lines without points give all zeros |
| `Bounds.BoundsOfOnePoint` | src/main.ts:277-305 | A single point (x, y) with x, y >= 0 gives the box from the origin to that point, of size x by y |
| `Bounds.ScanPointsAppend` | src/main.ts:282-300 | Scanning two lists one after the other is scanning their concatenation |
| `Bounds.GetBoundsXY` | src/main.ts:277-305 | The two nested loops compute exactly the scan over all points of all lines, with accumulators starting at 0 |
| `Bounds.ScanLine` | src/main.ts:285-300 | The inner loop over one line's buffer is the scan over that line's points |
| `Export.Token` | src/main.ts:350 | The text one point adds to `points`: x, a comma, y and a blank, with coordinates times `multiplyer` (1) and printed by `fmt`; it ends in a blank and holds a comma |
| `Export.PointsText` | src/main.ts:346-351 | The `points` text of a list of points: their tokens in order |
| `Export.MakePolyline` | src/main.ts:343-355 | The polyline of one line: its `points` text, stroke "black", stroke width "1", fill "none" |
| `Export.PolylinesOf` | src/main.ts:339-377 | The polylines of a list of lines: one per visible line, in order, hidden lines skipped |
| `Export.ExportDocument` | src/main.ts:314-377 | The document: bounds over all lines, hidden ones included; viewBox from those bounds; width `boundsX`; height `boundsY`; horizontal polylines, then vertical ones |
| `Export.ViewBoxOf` | src/main.ts:319-335 | The centred viewBox of content size plus `margin = 100` is the content box padded by 50 on every side |
| `Export.OccurrencesAppend` | src/main.ts:350 | Proof helper for `Export.PointsTextTokens`: counting a character in a concatenation adds the counts |
| `Export.NoOccurrences` | src/main.ts:350 | Proof helper for `Export.PointsTextTokens`: a character absent from a string has no occurrence in it |
| `Export.PointsTextTokens` | src/main.ts:346-352 | When printed numbers contain neither a blank nor a comma, `points` holds exactly one blank and one comma per point, is empty exactly when the line has no points, and ends in a blank |
| `Export.PolylinesOfCount` | src/main.ts:339-358 | One polyline per visible line: hidden lines are dropped; with every line visible there is one polyline per line, in order |
| `Export.ExportDocumentSpec` | src/main.ts:314-377 | Width and height are `boundsX` and `boundsY`, both non-negative; the viewBox is 100 wider and higher; it holds the origin and every point of every line, visible or not, with 50 to spare; there is one polyline per visible line |
| `Export.ExportAllHidden` | src/main.ts:314-315 | With every line hidden there is no polyline, yet the viewBox is still at least 100 by 100 and holds every point of the hidden lines with 50 to spare |
| `Export.BuildPointsString` | src/main.ts:346-351 | The `+=` loop over a buffer builds the token text of its points, "x,y " per point in order |
| `Export.AppendPolylines` | src/main.ts:339-358 | The `forEach` over one line list appends one polyline per visible line, in order, to what came before |
| `Export.BuildPolylines` | src/main.ts:339-377 | The horizontal lines' polylines come first, then the vertical ones |
| `Export.ExportLines` | src/main.ts:306-377 | The document built from two line lists has the bounds over all lines and the polylines of the visible ones |
| `Export.AssembleDocument` | src/main.ts:319-377 | Given the bounds, the viewBox, width, height and polylines are those of the export |
| `Engine.RandomAttractors` | src/main.ts:213-222 | `createAtractorpoints(amount)` gives exactly `amount` points; point k is draw k stretched by `lineCount` |
| `Engine.RandomAttractorsInGrid` | src/main.ts:216-219 | Attractors drawn from `[0, 1)` lie in `[0, lineCount]` on both axes |
| `Engine.Spread` | src/main.ts:217-218 | One attractor from one pair of draws: each draw times `lineCount` |
| `Engine.SpreadInCell` | src/main.ts:217-218 | One draw stretched over the grid lies inside it |
| `Engine.FractionOf` | src/main.ts:217-218 | Proof helper for `Engine.SpreadInCell`: a fraction in `[0, 1]` of a non-negative size lies in `[0, size]` |
| `Engine.Scaled` | src/main.ts:34-37 | Every attractor's coordinates multiplied by the factor: as many points, and factor 1 leaves them unchanged |
| `Engine.ScaledStaysInGrid` | src/main.ts:31-40 | Rescaling by `value / lineCount` keeps the number of attractors and keeps attractors of the old grid inside the new grid |
| `Engine.Rescale` | src/main.ts:35-36 | Proof helper for `Engine.ScaledStaysInGrid`: a coordinate in `[0, old]` times `new / old` lies in `[0, new]` |
| `Engine.ScaledTwice` | src/main.ts:34-37 | Two rescalings in a row are one rescaling by the product of the factors |
| `Engine.GridBuffers` | src/main.ts:184-211 | The undisplaced buffers of a grid of `amount` lines: buffer i is grid line i |
| `Engine.AttractEach` | src/main.ts:168-181 | One attractor's pass over a set of lines: every buffer becomes `Attracted` of itself |
| `Engine.ApplyEach` | src/main.ts:166-183 | Every line of a set gets the same list of attractors applied, and keeps its length |
| `Engine.ApplyEachStep` | src/main.ts:167-182 | One more attractor pass extends the applied prefix of the attractor list by one |
| `Engine.ApplyEachCompose` | src/main.ts:166-183 | Zero attractors leave every line unchanged; a set displaced again (as the re-enabling handlers at lines 62 and 78 do) ends up displaced by both lists in sequence |
| `Engine.DisplacedGridKeepsOffsets` | src/main.ts:184-211 | After any displacement, a horizontal grid line's x stays in `[0, lineCount]`, and a vertical line's y likewise |
| `Engine.PatternEngine.constructor` | src/main.ts:21-29 | The initial values: proportional link on with `proportion = 0.01 / 4`, `exponentialFalloff = 0.01`, `linearFalloff = 4`, 200 lines, both sets enabled, `pointAmount = 5`, no attractor drawn yet, and empty line collections |
| `Engine.PatternEngine.GetAttractedLinePoints` | src/main.ts:225-263 | The loop stepping by 3 fills a new array exactly with `Attracted` of the input, as long as the input |
| `Engine.PatternEngine.CreateLines` | src/main.ts:184-211 | Exactly `amount` new, distinct, visible lines whose buffers are the grid's |
| `Engine.PatternEngine.CreateAttractorPoints` | src/main.ts:213-222 | The loop collects exactly `RandomAttractors`: `amount` points inside the grid |
| `Engine.PatternEngine.AttractLines` | src/main.ts:168-174 | Every line of the list gets `Attracted` of its previous buffer; visibility is unchanged |
| `Engine.PatternEngine.AttractBoth` | src/main.ts:167-182 | For one attractor, the horizontal lines move as horizontal lines and the vertical lines as vertical lines |
| `Engine.PatternEngine.UpdatePattern` | src/main.ts:166-183 | Each set ends as its previous buffers displaced by the attractor list in order; visibility is unchanged |
| `Engine.PatternEngine.ResetPattern` | src/main.ts:154-165 | Both collections are empty; the attractors and the configuration are unchanged |
| `Engine.PatternEngine.PrepareHorizontal` | src/main.ts:122-132 | An empty, enabled horizontal set is built as a fresh grid; otherwise the existing set is kept |
| `Engine.PatternEngine.PrepareVertical` | src/main.ts:133-143 | The same for the vertical set |
| `Engine.PatternEngine.PrepareAttractors` | src/main.ts:144-151 | Attractors are drawn only when there are none; otherwise they are reused |
| `Engine.PatternEngine.PrepareState` | src/main.ts:122-151 | The three lazy branches of `initPattern` together |
| `Engine.PatternEngine.Displace` | src/main.ts:152 | Both sets are displaced by the attractors in order; nothing else changes |
| `Engine.PatternEngine.InitPattern` | src/main.ts:121-153 | Built sets are the grid displaced once; reused sets, the same objects, are displaced again on top of their buffers; attractors are drawn only when absent |
| `Engine.PatternEngine.Rebuild` | src/main.ts:38-39 | `resetPattern(); initPattern()`: every enabled set is new, visible and the grid displaced once by the attractors; every disabled set is empty |
| `Engine.PatternEngine.ScaleAttractors` | src/main.ts:34-37 | Every attractor coordinate is multiplied by the factor; nothing else changes |
| `Engine.PatternEngine.OnLineCountChange` | src/main.ts:31-40 | `lineCount` takes the value; existing attractors keep their count and are multiplied by `value / oldLineCount`; the pattern is rebuilt |
| `Engine.PatternEngine.OnPointAmountChange` | src/main.ts:43-48 | `pointAmount` takes the value; exactly `value` new attractors are drawn; the pattern is rebuilt |
| `Engine.PatternEngine.Refresh` | src/main.ts:389-394 | Exactly `pointAmount` new attractors; the pattern is rebuilt; the configuration is unchanged |
| `Engine.PatternEngine.SetExponentialFalloff` | src/main.ts:83-87 | With the link on, `linearFalloff = value / proportion`; otherwise `linearFalloff` is unchanged; the link invariant holds |
| `Engine.PatternEngine.SetLinearFalloff` | src/main.ts:92-96 | With the link on, `exponentialFalloff = value * proportion`; otherwise unchanged |
| `Engine.PatternEngine.OnExponentialFalloffChange` | src/main.ts:82-90 | The assignments above, then a rebuild that keeps the attractors |
| `Engine.PatternEngine.OnLinearFalloffChange` | src/main.ts:91-99 | The assignments above, then a rebuild that keeps the attractors |
| `Engine.PatternEngine.OnProportionalChange` | src/main.ts:100-105 | Switching the link on sets `proportion = exponentialFalloff / linearFalloff`; switching it off keeps `proportion`; nothing is redrawn |
| `Engine.PatternEngine.ShowHorizontal` | src/main.ts:52-61 | The flag takes the value, and every horizontal line is shown or hidden with its buffer untouched |
| `Engine.PatternEngine.OnHorizontalChange` | src/main.ts:51-64 | Off: lines hidden, nothing else changes. On: lines shown, and `initPattern` runs without a reset, so existing sets of both orientations are displaced once more |
| `Engine.PatternEngine.ShowVertical` | src/main.ts:68-77 | The same as `ShowHorizontal` for the vertical set |
| `Engine.PatternEngine.OnVerticalChange` | src/main.ts:67-80 | The same as `OnHorizontalChange` for the vertical set |
| `Engine.PatternEngine.ExportLinesAsSVG` | src/main.ts:306-377 | The document is the export of the engine's two line sets: bounds over all lines, polylines of the visible ones, horizontal first |
| `Engine.Startup` | src/main.ts:403-404 | Initial values, then `initPattern`: 5 attractors in the 200-line grid, 200 horizontal and 200 vertical displaced lines |
| `Engine.ReEnableHorizontal` | src/main.ts:51-64 | After startup, clearing and re-ticking the horizontal checkbox shows the same 200 lines again, displaced by the startup attractors twice over (the attractor list concatenated with itself) |

## Left out

- The three.js scene, camera, renderer, orbit controls and animation loop (src/main.ts:1-20, 107-120, 397-405): rendering only.
- lil-gui registration, slider ranges and the `.listen()`/`.object` rebinding of the falloff controllers: UI plumbing. Only the handler bodies are modelled. The slider ranges (for example `lineCount` in `[2, 1000]`) appear only as the lower bounds the handlers require.
- `geometry.dispose()` and adding lines to or removing them from the scene group: resource and scene-graph calls. The model keeps only their effect, that the collections are emptied or filled.
- The DOM side of the export: `createElementNS`, `setAttribute`, `XMLSerializer`, `Blob`, the object URL, the download link and `console.log`. The export yields an `SvgDocument` value instead. The fixed initial `viewBox` attribute at src/main.ts:309 is overwritten by the computed one and is not modelled.
- Floating point: numbers are real. Float32 rounding from `Float32BufferAttribute` is not modelled, and no proof depends on exact JavaScript double results.
- `Math.exp` is abstract: only `exp(0) = 1` and positivity are used.
- `Math.random` is replaced by the `rng` draws parameter.
- JavaScript number printing: `fmt` stands for it, and only the token structure of `points` is modelled.
- `THREE.LineCurve.getPoints` belongs to three.js and is not part of this model. Its contract is taken as `divisions + 1` evenly spaced samples with both ends included (`Grid.CurvePoint`).
- The branch of `getAttractedLinePoints` for an orientation tag other than 'horizontal' and 'vertical', which leaves the new buffer zeroed, cannot be reached: the orientation is a two-valued datatype.
- `Engine.PatternEngine.OnExponentialFalloffChange` requires `proportion != 0` under the link, where JavaScript would compute an infinite or undefined `linearFalloff`.
- `Engine.PatternEngine.SetExponentialFalloff` has the same precondition.
- `Engine.PatternEngine.OnProportionalChange` requires `linearFalloff != 0` when the link is switched on, for the same reason.
- `Engine.PatternEngine.OnLineCountChange` requires `value >= 2`, the slider's lower bound; the old `lineCount` is then never 0.
- Attractor objects are mutated in place by the `lineCount` handler. The model rebuilds the list as values instead, because nothing else holds a reference to those objects.
- `Engine.PatternEngine.GetAttractedLinePoints` states its result as `Attracted` of the input. The per-point facts (z = 0, the copied coordinate, the level point that stays) are proved about `Attracted` in `Distortion.AttractedKeeps`, not repeated in the method's contract.
- `Engine.PatternEngine.OnHorizontalChange` and `Engine.PatternEngine.OnVerticalChange`: when switched on, they do not state the outcome for the other set when that set is empty and enabled and therefore gets built, beyond the engine invariant.
