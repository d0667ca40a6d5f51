# Plottable line and stacked-bar geometry in Dafny

This project models two plots of the Plottable charting library:

- **The line plot** (`src/plots/linePlot.ts`). Its smooth-autorange scan finds where each dataset's line crosses the two edges of a scale's domain. It interpolates the other coordinate there and widens an extent to cover those values. The model also covers:
  - the baseline that the animated reset line starts from;
  - the draw steps of an animated and a plain render;
  - the projection of line attributes on a dataset's first record;
  - the nearest-entity query;
  - the path-vertex ("defined") test and the records a path joins;
  - the smooth-autorange and interpolator settings.
- **The stacked bar plot** (`src/components/plots/stackedBarPlot.ts`). Each bar starts at the scaled stack offset of its dataset and key and ends at the scaled sum of offset and value. The plot sets the bar's value attribute (its drawn origin) from these. The origin depends on the value's sign and on the plot's orientation, and a horizontal bar's origin steps back by |end − start|. The drawn width and height attributes stay those of the base bar plot. The plot keeps two caches, the stack offsets and the stacked extent. It recomputes them together when a binding or the datasets change, provided its projectors are ready.

Numbers are `real`. Scales are objects whose `scale` and `invert` are uninterpreted functions. Their `domain` and `snapsDomain` are mutable fields. `Increasing`/`Decreasing` is assumed only where a lemma needs it. A coordinate that is `null` or `NaN` is `Option.None` in the path-vertex test (`LineGeometry.Defined`). There, both the accessor's raw value and the scale's result are `Option`s (`Accessor.coordinate`, `Scale.scaleCoordinate`), so the scale decides whether a record keeps its coordinate. The edge scan and the stacking take every accessor value to be a number (`Accessor.number`). An accessor's two views, and a scale's two, are separate functions in the model. The lemma `LineGeometry.ScaledCoordinateIsDrawn` relates them on a record where they agree (`Plottable.CoherentAt`, `Plottable.CoherentScale`).

Modules:

| file | contents |
|---|---|
| `Wrappers.dfy` | `Option`, `Result` |
| `Plottable.dfy` | datasets, accessors, the `Scale` class, bindings, points, entities, projector types |
| `LineGeometry.dfy` | pure line-plot rules and their lemmas |
| `LinePlot.dfy` | class `Line` and its state-changing or looping operations |
| `StackedBarGeometry.dfy` | pure per-bar rules and their lemmas |
| `StackedBarPlot.dfy` | class `StackedBar` and its cache maintenance |

**How smooth autoranging is wired.**

- The setter's documentation says smooth autoranging makes sure "lines always exit on the left / right side of the plot" (`src/plots/linePlot.ts:44-45`).
- The code does this instead:
  - `_computeExtent` only acts when the binding is `this.x()` (`src/plots/linePlot.ts:109`).
  - It then calls `_getEdgeIntersectionPoints(this.y(), this.x())` (`src/plots/linePlot.ts:113`), whose parameters are named `(xAccessor, yAccessor)` (`src/plots/linePlot.ts:134`).
  - So the edges scanned are those of the y scale's domain, and the crossing coordinate is inverted with the x scale.
  - The result is that the x extent is widened by the crossings of the y domain's edges.
- `Line.IncludedValues` and `Line.ComputeExtent` model the code as written.
- The scan itself is modelled over a neutral "edge axis" and "value axis" (`LineGeometry.EdgeAxes`).

## Model

| member | source | states |
|---|---|---|
| LineGeometry.CrossesEdge | src/plots/linePlot.ts:164 | the pair test `(prev < edge) == (edge <= curr)` holds exactly when one point is strictly before the edge and the other at or past it, in either order; a detected crossing never has equal coordinates, so the divisor is never zero |
| LineGeometry.InterpolationBounds | src/plots/linePlot.ts:165-168 | on a detected crossing `x2 != 0`, and `x1 * y2 / x2` lies between 0 and `y2` |
| LineGeometry.EdgeValue | src/plots/linePlot.ts:165-172 | the interpolated value `prevY + x1*y2/x2` lies between `prevY` and `currY` inclusive and on the line through the two points |
| LineGeometry.EdgeHit | src/plots/linePlot.ts:170-173 | the recorded point's x is the screen-space edge itself |
| LineGeometry.ScreenPoints | src/plots/linePlot.ts:157-161 | the screen point of each record, its scaled edge and value accessor values, in order (its property, that the loop's carried previous point is point i−1, is stated by Line.ScanDataset; the crossings among them by EdgeHitsAreCrossings) |
| LineGeometry.EdgeHits | src/plots/linePlot.ts:156-188 | a dataset of n records yields at most n-1 points per edge (none for fewer than 2), each on the edge |
| LineGeometry.EdgeHitsStep | src/plots/linePlot.ts:156-188 | one more record appends the hit of the new last pair, if it crosses, after the earlier hits |
| LineGeometry.ExtendHits | src/plots/linePlot.ts:163-187 | one edge test of the scan turns the hits of the first i points into those of the first i+1 |
| LineGeometry.EdgeHitsAreCrossings | src/plots/linePlot.ts:156-188 | a point is recorded if and only if it is the interpolated hit of some consecutive pair that crosses the edge |
| LineGeometry.EdgeHitWithinSegment | src/plots/linePlot.ts:172 | under a monotone inverse scale, the recorded y lies between the inverted y values of the pair |
| LineGeometry.DatasetsEdgeHits | src/plots/linePlot.ts:150-189 | over all datasets, at most one hit per consecutive pair, each on the edge |
| LineGeometry.DatasetsEdgeHitsStep | src/plots/linePlot.ts:150-189 | each dataset's hits follow those of the datasets before it |
| LineGeometry.Ys | src/plots/linePlot.ts:114 | the included values are the y of each intersection point, in order |
| LineGeometry.MaxOf | src/plots/linePlot.ts:116 | the maximum of a non-empty list is one of its elements and bounds all of them |
| LineGeometry.MinOf | src/plots/linePlot.ts:117 | the minimum of a non-empty list is one of its elements and is below all of them |
| LineGeometry.Widen | src/plots/linePlot.ts:114-131 | no included value: the base is unchanged, or `[Infinity, -Infinity]` for an empty base; otherwise a span that covers every included value and contains the base; an empty base becomes exactly `[min, max]` of the included values |
| LineGeometry.WidenIsLeastCover | src/plots/linePlot.ts:119-129 | the widened extent lies inside every span that covers the base and the included values |
| LineGeometry.WidenIdempotent | src/plots/linePlot.ts:119-129 | widening a second time by the same values changes nothing |
| LineGeometry.ResetStartValue | src/plots/linePlot.ts:196-201 | the reset start value lies in the domain, is the domain value closest to 0, and is 0 when the domain contains 0 |
| LineGeometry.ResetYFunction | src/plots/linePlot.ts:194-204 | the reset y projector: the scaled reset start value of the y domain, for every record (its property is stated by ResetYIsConstant) |
| LineGeometry.ResetYIsConstant | src/plots/linePlot.ts:202-203 | the reset y projector returns the scaled start value whatever the record |
| LineGeometry.ScaledCoordinate | src/plots/linePlot.ts:266-267 | `Plot._scaledAccessor(binding)(d, i, dataset)` as an optional coordinate: the raw value through the scale's coordinate view, absent when the scaled result is null or NaN (its properties are stated by ScaledCoordinateIsDrawn and DefinedIffPresent) |
| LineGeometry.ScaledCoordinateIsDrawn | src/plots/linePlot.ts:260-267 | where the accessor's and the scale's two views agree, a present coordinate that stays present after scaling is exactly the value the line projector draws at |
| LineGeometry.Defined | src/plots/linePlot.ts:265-270 | the `definedProjector`: both scaled coordinates are neither null nor NaN (its properties are stated by VerticesAreDefined and DefinedIffPresent) |
| LineGeometry.DefinedIffPresent | src/plots/linePlot.ts:265-270 | when the bound scales neither drop a present value nor place a missing one, a record is a path vertex exactly when neither raw x nor raw y accessor value is null or NaN |
| LineGeometry.VerticesUpToExactly | src/plots/linePlot.ts:271-276 | among the first n records, an index is listed exactly when both scaled coordinates of its record are present, and the list is strictly increasing |
| LineGeometry.VerticesAreDefined | src/plots/linePlot.ts:271-276 | the records the path joins are exactly those the `defined` test accepts |
| LineGeometry.FirstRecord | src/plots/linePlot.ts:223-225 | the rewrite of a record projector into one over a dataset's record list, evaluated on `data[0]` and null for an empty list (its property is stated by FirstRecordOnly) |
| LineGeometry.FirstRecordOnly | src/plots/linePlot.ts:221-226 | a rewritten attribute depends only on the first record of the list and is null for an empty list |
| LineGeometry.ScaledAccessor | src/plots/linePlot.ts:260 | `Plot._scaledAccessor(binding)`: the accessor's number through the binding's scale when it has one, which the draw steps pass to the line projector |
| LinePlot.AxesOf | src/plots/linePlot.ts:140-141 | the scan axes: edge accessor and scale from the first binding, value accessor, scale and inverse from the second (which binding plays which part, the x/y swap, is stated by Line.ComputeExtent) |
| LinePlot.Line.constructor | src/plots/linePlot.ts:6-8 | a new line plot has smooth autoranging off and the "linear" interpolator |
| LinePlot.Line.SetAutorangeSmooth | src/plots/linePlot.ts:48-60 | sets the flag and sets `snapsDomain` to its negation on each quantitative scale bound to x or y; other scales keep their snapping |
| LinePlot.Line.SetInterpolator | src/plots/linePlot.ts:92-98 | sets the interpolator |
| LinePlot.Line.SetY | src/plots/linePlot.ts:30-35 | binds y; a quantitative scale given with it snaps its domain exactly when smooth autoranging is off |
| LinePlot.Line.EdgeIntersectionPoints | src/plots/linePlot.ts:134-192 | returns the left and right edge hits of all datasets, which are empty when the value scale is not quantitative and number at most one per consecutive pair |
| LinePlot.Line.RecordCrossing | src/plots/linePlot.ts:163-187 | one edge test of the loop appends exactly the hit of the pair, if it crosses |
| LinePlot.Line.ScanDataset | src/plots/linePlot.ts:152-188 | the per-dataset loop, with `prevX = currX \|\| ...` carried over, appends exactly that dataset's hits for both edges |
| LinePlot.Line.ComputeExtent | src/plots/linePlot.ts:105-132 | the base extent is returned unchanged unless smoothing is on, x has a scale and the binding is x's; otherwise it is widened by the edge values of the call as written; a base span only grows |
| LinePlot.Line.GenerateAttrToProjector | src/plots/linePlot.ts:219-229 | the key set is the inherited one plus "d"; "d" is the path; every other attribute is evaluated on the first record. The inherited map is the base projectors without "d": the source's inherited map already holds "d" (from `_propertyProjectors`, lines 258-261) and the loop skips it (line 222), so the model passes that "d" separately as `path` and the key set is the same as the source's |
| LinePlot.Line.GenerateDrawSteps | src/plots/linePlot.ts:206-217 | when animating, two steps: reset, whose "d" is the line projector of the scaled x and of the reset y baseline, then main; otherwise one main step. Main's "d" is the line projector of the scaled x and y. Main is always last |
| LinePlot.Line.EntityNearest | src/plots/linePlot.ts:237-256 | none exactly when no entity is visible; otherwise a visible entity with lexicographically least (x distance, y distance), the first of equals |
| StackedBarGeometry.ValueAttribute | src/components/plots/stackedBarPlot.ts:63-64 | the value attribute is the key attribute of the other orientation and never the key attribute of its own |
| StackedBarGeometry.KeyAttribute | src/components/plots/stackedBarPlot.ts:64 | the key attribute is "x" or "y" |
| StackedBarGeometry.StackEntry | src/components/plots/stackedBarPlot.ts:69 | the lookup succeeds exactly when the dataset and the key have an entry, and then gives that entry |
| StackedBarGeometry.BarStart | src/components/plots/stackedBarPlot.ts:68-69 | `getStart`: the scaled offset (its properties are stated by BarDirection, StackedBarsMeet, VerticalOriginIsTop, HorizontalOriginIsLeft and BarCoversSegment) |
| StackedBarGeometry.BarEnd | src/components/plots/stackedBarPlot.ts:70-72 | `getEnd`: the scaled offset plus value (its properties are stated by the same lemmas) |
| StackedBarGeometry.BarDirection | src/components/plots/stackedBarPlot.ts:68-72 | under an increasing scale a bar ends at or past its start exactly when its value is not negative; under a decreasing scale, at or before it |
| StackedBarGeometry.StackedBarsMeet | src/components/plots/stackedBarPlot.ts:68-72 | when the segment above starts at the offset plus value of the one below, it starts on screen exactly where the bar below ends |
| StackedBarGeometry.BarHeight | src/components/plots/stackedBarPlot.ts:74-76 | `heightF` is non-negative and equals the larger minus the smaller of start and end |
| StackedBarGeometry.BarOrigin | src/components/plots/stackedBarPlot.ts:78-81 | a vertical bar's origin is its start or its end; a horizontal bar's is one of them minus abs(end − start) |
| StackedBarGeometry.BarPosition | src/components/plots/stackedBarPlot.ts:65-81 | fails with `MissingStackEntry` exactly when the dataset or key has no stack entry; otherwise it is the origin of the bar from `scale(offset)` to `scale(value + offset)` |
| StackedBarGeometry.ValueProjector | src/components/plots/stackedBarPlot.ts:80-81 | the value attribute's projector: a record's BarPosition as a number, or its `MissingStackEntry` failure (stated for the plot by StackedBar.GenerateAttrToProjector) |
| StackedBarGeometry.VerticalOriginIsTop | src/components/plots/stackedBarPlot.ts:68-81 | under a decreasing scale a vertical bar's origin is the smaller of start and end whatever the value's sign, and origin plus abs(end − start) is the larger |
| StackedBarGeometry.HorizontalOriginIsLeft | src/components/plots/stackedBarPlot.ts:68-81 | under an increasing scale a horizontal bar's origin is the smaller of start and end whatever the value's sign, and origin plus abs(end − start) is the larger |
| StackedBarGeometry.BarCoversSegment | src/components/plots/stackedBarPlot.ts:68-81 | the span from the origin over abs(end − start) covers the screen image of every point of the stacked segment from offset to offset plus value |
| StackedBarPlot.StackedBar.KeyBinding | src/components/plots/stackedBarPlot.ts:113 | the recompute's key binding is the binding of the key attribute |
| StackedBarPlot.StackedBar.ValueBinding | src/components/plots/stackedBarPlot.ts:114 | the recompute's value binding is the binding of the value attribute |
| StackedBarPlot.StackedBar.constructor | src/components/plots/stackedBarPlot.ts:19-24 | a new plot has no stack offsets and an empty stacked extent, and its caches are consistent |
| StackedBarPlot.StackedBar.UpdateStackExtentsAndOffsets | src/components/plots/stackedBarPlot.ts:107-119 | nothing changes unless the projectors are ready; otherwise both caches are replaced together, the extent being that of the fresh offsets under the value filter |
| StackedBarPlot.StackedBar.SetX | src/components/plots/stackedBarPlot.ts:29-41 | binds x, with or without a scale, and then recomputes; the caches stay consistent |
| StackedBarPlot.StackedBar.SetY | src/components/plots/stackedBarPlot.ts:46-58 | binds y, with or without a scale, and then recomputes; the caches stay consistent |
| StackedBarPlot.StackedBar.OnDatasetUpdate | src/components/plots/stackedBarPlot.ts:85-89 | recomputes the caches from the current datasets when the projectors are ready |
| StackedBarPlot.StackedBar.SetDatasets | src/components/plots/stackedBarPlot.ts:85-89 | base-plot behaviour, not in the modelled files: replaces the dataset list and then runs the update hook; the offsets become those of the new datasets when the projectors are ready, both caches stay as they were otherwise, and the caches stay consistent |
| StackedBarPlot.StackedBar.UpdateExtentsForProperty | src/components/plots/stackedBarPlot.ts:91-96 | recomputes only for "x" or "y" and only when the projectors are ready; otherwise nothing changes |
| StackedBarPlot.StackedBar.ExtentsForProperty | src/components/plots/stackedBarPlot.ts:98-105 | the value attribute's extents are exactly `[stackedExtent]`; other attributes keep the base plot's |
| StackedBarPlot.StackedBar.GenerateAttrToProjector | src/components/plots/stackedBarPlot.ts:60-84 | only the value attribute is replaced (added if absent), by the projector giving each record's stacked bar position or `MissingStackEntry` |
| StackedBarPlot.StackedBar.PrimaryExtentIsCurrent | src/components/plots/stackedBarPlot.ts:98-119 | while the projectors are ready, the value attribute's extent is the stacked extent of the current datasets and bindings |

## Left out

- `d3.svg.line()` path generation and the interpolation modes are a foreign library producing an SVG string (`_constructLineProjector`, `src/plots/linePlot.ts:264-278`). `GenerateDrawSteps` takes the line projector as a parameter. Its `defined` test and the records it joins are modelled (`LineGeometry.Defined`, `LineGeometry.Vertices`). The drawn string is not.
- The debug `console.log`, `render()`, `_createDrawer` and `_getDataToDraw` are not modelled: they are I/O or rendering plumbing.
- The constructors' animator configuration, CSS classes and default stroke attributes are not modelled.
- LinePlot.Line.SetAutorangeSmooth: the call `this.autorangeMode(this.autorangeMode())` (`src/plots/linePlot.ts:62`) is not modelled. That call re-runs autoranging, so the bound scales refit their domains. The contract states only the flag and domain snapping, and says nothing about what the domains become.
- Base-class behaviour is not part of this model. They enter the model as parameters: the base extent, inherited projector maps, the entity list, a visibility function, and the readiness and filter functions given to `StackedBar`. The base-class calls concerned are:
  - `super._computeExtent`, `super._generateAttrToProjector`, `super._extentsForProperty`;
  - `super._onDatasetUpdate` (`src/components/plots/stackedBarPlot.ts:87`) and `super._updateExtentsForProperty` (`src/components/plots/stackedBarPlot.ts:92`), which refresh the base plot's own extents;
  - the binding done by `super.x`/`super.y` (`src/components/plots/stackedBarPlot.ts:34-36`, `51-53`; `src/plots/linePlot.ts:34`), which the model reduces to assigning the binding field;
  - `entities()`, `_entityVisibleOnPlot`, `_projectorsReady`, `_valueFilterForProperty`, `_animateOnNextRender`, `_getAnimator` and the bindings' getters.
- `Plot._scaledAccessor` is not in the modelled files. `LineGeometry.ScaledAccessor` and `LineGeometry.ScaledCoordinate` model it as: the accessor's value through the binding's scale, if any. The model does not fix how a particular scale treats `null` or `NaN`; `Scale.scaleCoordinate` leaves that to the scale.
- StackedBarPlot.StackedBar.constructor: takes the orientation as a required `isVertical`. The source's `orientation` argument defaults to vertical (`src/components/plots/stackedBarPlot.ts:19`).
- The bodies of `Utils.Stacked.computeStackOffsets` and `computeStackExtent` are not part of this model. `StackedBar` takes them as uninterpreted functions. Its constructor requires that the extent of no offsets is `[]`.
- The drawn width and height of a stacked bar are the base bar plot's attributes, which `src/components/plots/stackedBarPlot.ts:60-84` leaves as they are. `heightF` (`BarHeight`) is modelled only as the amount a horizontal bar's origin steps back.
- Infinity and NaN arithmetic is not modelled. `Math.max`/`Math.min` of an empty list are the `InfiniteInverted` extent. A `null`/`NaN` coordinate is `None` only in the path-vertex test.
- LinePlot.Line.ComputeExtent: datasets with a missing (`null` or `NaN`) x or y value are outside the model. The edge scan's accessors and scales are total on reals (`LineGeometry.EdgeAxes`). In the source, a `NaN` previous coordinate passes the crossing test `(prev < edge) === (edge <= curr)` whenever `curr < edge` (`src/plots/linePlot.ts:164`, `177`), and `invert(NaN)` is then pushed. One `NaN` included value makes `Math.max`/`Math.min` `NaN` (`src/plots/linePlot.ts:116-117`). After that, `src/plots/linePlot.ts:123-128` never widen a base span, and an empty base becomes `[NaN, NaN]`.
- LinePlot.Line.ComputeExtent: when the value scale is quantitative, the model requires y to be bound with a scale. The source would throw a TypeError reading `this.y().scale` there, and the model does not represent that throw.
- LinePlot.Line.GenerateDrawSteps: requires x and y to be bound, and y to have a scale when animating. In the other cases the source would throw reading `this.x()`/`this.y()` (`src/plots/linePlot.ts:196`, `210`, `260`).
- StackedBarPlot.StackedBar.ProjectorsReady: also requires x and y to be bound. A source plot that reports ready without both would throw in `_updateStackExtentsAndOffsets`, and the model does not represent that throw.
- StackedBarPlot.StackedBar.GenerateAttrToProjector: the projector captures the stack offsets when it is generated. The source reads `this._stackOffsets` each time the projector runs. The two agree unless the caches are recomputed between generating and evaluating the projector. The method also requires the value binding to have a scale, where the source would throw only when the projector runs.
- LinePlot.Line.EntityNearest: the `at` index is a ghost out-parameter naming the returned entity's position, added for the specification.
- The plots' x/y getters are the `x` and `y` fields themselves. Reading them changes nothing.
