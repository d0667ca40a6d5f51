/**
 * The line plot (src/plots/linePlot.ts): a plot that draws one path per
 * dataset. Its state is the smooth-autorange flag, the interpolation mode,
 * the x and y bindings and the datasets; the methods below are its
 * extent override, the edge-intersection scan behind smooth autoranging, the
 * draw steps of an animated render, the attribute projection and the
 * nearest-entity query.
 */
module LinePlot {
  import opened Wrappers
  import opened Plottable
  import opened LineGeometry

  /** The interpolation mode of the path: a d3 mode by name ("linear",
      "step-before", "cardinal", ...) or a custom function from the point list
      to a path string. */
  datatype Interpolator = Named(name: string) | Custom(path: seq<(real, real)> -> string)

  /** The animators a draw step can be played with. */
  datatype AnimatorName = Reset | Main

  /** One draw step: the attribute projectors to draw with and the animator
      that plays them. */
  datatype DrawStep<!D> = DrawStep(attrToProjector: map<string, ListProjector<D>>, animator: AnimatorName)

  /** The attribute map of a line: the path attribute "d" is `path`, every
      other inherited attribute is evaluated on the first record of the
      dataset's list, and no attribute is added or dropped. */
  ghost predicate IsLineProjection<D>(attrs: map<string, ListProjector<D>>,
                                      inherited: map<string, RecordProjector<D>>, path: ListProjector<D>)
  {
    && attrs.Keys == inherited.Keys + {"d"}
    && attrs["d"] == path
    && forall a :: a in inherited ==> attrs[a] == FirstRecord(inherited[a])
  }

  /** The scan axes built from an edge binding and a value binding. */
  function AxesOf<D>(edge: Binding<D>, value: Binding<D>): EdgeAxes<D>
    requires edge.scale.Some? && value.scale.Some?
  {
    EdgeAxes(edge.accessor, edge.scale.value.scale, value.accessor, value.scale.value.scale, value.scale.value.invert)
  }

  /** The distances of an entity's position from the query point, x first. */
  function Distances<D>(query: Point, e: PlotEntity<D>): (real, real) {
    (Abs(query.x - e.position.x), Abs(query.y - e.position.y))
  }

  /** Lexicographic order on distance pairs: closer in x, or as close in x
      and closer in y. */
  predicate Closer(a: (real, real), b: (real, real)) {
    a.0 < b.0 || (a.0 == b.0 && a.1 < b.1)
  }

  /** The visibility test of the base plot, applied to an entity. */
  predicate IsVisible<D>(visible: (Point, D, int, Dataset<D>) -> bool, e: PlotEntity<D>) {
    visible(e.position, e.datum, e.index, e.dataset)
  }

  class Line<D> {
    var autorangeSmooth: bool
    var interpolator: Interpolator
    var x: Option<Binding<D>>
    var y: Option<Binding<D>>
    var datasets: seq<Dataset<D>>

    /** A new line plot: smooth autoranging off, linear interpolation, no
        bindings and no datasets. */
    constructor ()
      ensures !autorangeSmooth && interpolator == Named("linear")
      ensures x == None && y == None && datasets == []
    {
      autorangeSmooth := false;
      interpolator := Named("linear");
      x := None;
      y := None;
      datasets := [];
    }

    /** Sets the smooth-autorange flag and turns domain snapping off (on) on
        each quantitative scale bound to x or y when smoothing is turned on
        (off). Other scales keep their snapping; what the scales' domains
        become once autoranging runs again is not stated here. */
    method SetAutorangeSmooth(smooth: bool)
      modifies this`autorangeSmooth, BoundScales(x), BoundScales(y)
      ensures autorangeSmooth == smooth
      ensures forall s :: s in BoundScales(x) + BoundScales(y) && s.quantitative ==> s.snapsDomain == !smooth
      ensures forall s :: s in BoundScales(x) + BoundScales(y) && !s.quantitative ==> s.snapsDomain == old(s.snapsDomain)
    {
      autorangeSmooth := smooth;
      if y.Some? && IsQuantitative(y.value) {
        y.value.scale.value.snapsDomain := !smooth;
      }
      if x.Some? && IsQuantitative(x.value) {
        x.value.scale.value.snapsDomain := !smooth;
      }
    }

    /** Sets the interpolation mode. */
    method SetInterpolator(mode: Interpolator)
      modifies this`interpolator
      ensures interpolator == mode
    {
      interpolator := mode;
    }

    /** Binds y; a quantitative scale given with it snaps its domain exactly
        when smooth autoranging is off. */
    method SetY(b: Binding<D>)
      modifies this`y, BoundScales(Some(b))
      ensures y == Some(b)
      ensures IsQuantitative(b) ==> b.scale.value.snapsDomain == !autorangeSmooth
      ensures b.scale.Some? && !b.scale.value.quantitative ==> b.scale.value.snapsDomain == old(b.scale.value.snapsDomain)
    {
      if IsQuantitative(b) {
        b.scale.value.snapsDomain := !autorangeSmooth;
      }
      y := Some(b);
    }

    /** The edge intersections of every dataset's line with the two edges of
        the edge binding's domain: none when the value binding's scale is not
        quantitative. */
    ghost function EdgeIntersections(edgeBinding: Option<Binding<D>>, valueBinding: Binding<D>): (seq<Point>, seq<Point>)
      reads this, BoundScales(edgeBinding)
      requires IsQuantitative(valueBinding) ==> edgeBinding.Some? && edgeBinding.value.scale.Some?
    {
      if !IsQuantitative(valueBinding) then ([], [])
      else
        var edgeScale := edgeBinding.value.scale.value;
        var axes := AxesOf(edgeBinding.value, valueBinding);
        (DatasetsEdgeHits(datasets, axes, edgeScale.scale(edgeScale.domain.0)),
         DatasetsEdgeHits(datasets, axes, edgeScale.scale(edgeScale.domain.1)))
    }

    /** Scans each dataset's consecutive screen-space points and records, for
        each pair that crosses the left (right) edge of the edge binding's
        domain, the edge and the inverted value interpolated there. The
        previous point of each pair is carried over from the iteration before,
        as the source does; it is the scaled previous record. */
    method EdgeIntersectionPoints(edgeBinding: Option<Binding<D>>, valueBinding: Binding<D>)
      returns (left: seq<Point>, right: seq<Point>)
      requires IsQuantitative(valueBinding) ==> edgeBinding.Some? && edgeBinding.value.scale.Some?
      ensures (left, right) == EdgeIntersections(edgeBinding, valueBinding)
      ensures !IsQuantitative(valueBinding) ==> left == [] && right == []
      ensures |left| <= PairCount(datasets) && |right| <= PairCount(datasets)
    {
      if !IsQuantitative(valueBinding) {
        return [], [];
      }
      var edgeScale := edgeBinding.value.scale.value;
      var axes := AxesOf(edgeBinding.value, valueBinding);

      left, right := [], [];
      var leftX := edgeScale.scale(edgeScale.domain.0);
      var rightX := edgeScale.scale(edgeScale.domain.1);

      var k := 0;
      while k < |datasets|
        invariant 0 <= k <= |datasets|
        invariant left == DatasetsEdgeHits(datasets[..k], axes, leftX)
        invariant right == DatasetsEdgeHits(datasets[..k], axes, rightX)
      {
        DatasetsEdgeHitsStep(datasets, k, axes, leftX);
        DatasetsEdgeHitsStep(datasets, k, axes, rightX);
        left, right := ScanDataset(datasets[k], axes, leftX, rightX, left, right);
        k := k + 1;
      }
      assert datasets[..|datasets|] == datasets;
    }

    /** One edge test of the scan: when the pair (i - 1, i) crosses the edge,
        appends the edge and the inverted value interpolated there, so that
        a scan that had recorded the hits of the first `i` points has then
        recorded those of the first `i + 1`. */
    method RecordCrossing(ghost base: seq<Point>, ghost pts: seq<Point>, ghost i: int,
                          hits0: seq<Point>, prev: Point, curr: Point, edge: real, invert: real -> real)
      returns (hits: seq<Point>)
      requires 1 <= i < |pts| && prev == pts[i - 1] && curr == pts[i]
      requires hits0 == base + EdgeHits(pts[..i], edge, invert)
      ensures hits == base + EdgeHits(pts[..i + 1], edge, invert)
    {
      ExtendHits(base, pts, i, edge, invert);
      hits := hits0;
      var prevX, prevY, currX, currY := prev.x, prev.y, curr.x, curr.y;
      if (prevX < edge) == (edge <= currX) {
        var x1 := edge - prevX;
        var x2 := currX - prevX;
        var y2 := currY - prevY;
        var y1 := x1 * y2 / x2;
        assert EdgeValue(prevX, prevY, currX, currY, edge) == prevY + y1;
        hits := hits + [Point(edge, invert(prevY + y1))];
      }
    }

    /** The body of the per-dataset scan: appends to `left` and `right` the
        hits of the dataset's consecutive record pairs with the two edges. */
    method ScanDataset(dataset: Dataset<D>, axes: EdgeAxes<D>, leftX: real, rightX: real,
                       left0: seq<Point>, right0: seq<Point>)
      returns (left: seq<Point>, right: seq<Point>)
      ensures left == left0 + EdgeHits(ScreenPoints(dataset, axes), leftX, axes.valueInvert)
      ensures right == right0 + EdgeHits(ScreenPoints(dataset, axes), rightX, axes.valueInvert)
    {
      var data := dataset.data;
      ghost var pts := ScreenPoints(dataset, axes);
      ScreenPointsAt(dataset, axes);
      left, right := left0, right0;
      if |data| == 0 {
        return;
      }
      var prevX, prevY, currX, currY := 0.0, 0.0, 0.0, 0.0;
      var i := 1;
      while i < |data|
        invariant 1 <= i <= |data| == |pts|
        invariant left == left0 + EdgeHits(pts[..i], leftX, axes.valueInvert)
        invariant right == right0 + EdgeHits(pts[..i], rightX, axes.valueInvert)
        invariant 1 < i ==> Point(currX, currY) == pts[i - 1]
      {
        // `prevX = currX || ...`: reuse the last iteration's value unless it is
        // missing (first pair) or falsy (0), in which case recompute it.
        prevX := if 1 < i && currX != 0.0 then currX
                 else axes.edgeScale(axes.edgeAccessor.number(data[i - 1], i - 1, dataset));
        prevY := if 1 < i && currY != 0.0 then currY
                 else axes.valueScale(axes.valueAccessor.number(data[i - 1], i - 1, dataset));
        currX := axes.edgeScale(axes.edgeAccessor.number(data[i], i, dataset));
        currY := axes.valueScale(axes.valueAccessor.number(data[i], i, dataset));
        assert Point(prevX, prevY) == pts[i - 1] && Point(currX, currY) == pts[i];
        left := RecordCrossing(left0, pts, i, left, Point(prevX, prevY), Point(currX, currY), leftX, axes.valueInvert);
        right := RecordCrossing(right0, pts, i, right, Point(prevX, prevY), Point(currX, currY), rightX, axes.valueInvert);
        i := i + 1;
      }
      assert pts[..|data|] == pts;
    }

    /** Whether the extent of a binding is widened: smooth autoranging is on,
        x is bound to a scale, and the binding is x's. */
    predicate SmoothApplies(forX: bool)
      reads this
    {
      autorangeSmooth && x.Some? && x.value.scale.Some? && forX
    }

    /** The values the widened extent must include: the y of every point of
        the edge scan as the plot calls it, with y's binding as the edge axis
        and x's binding as the value axis. */
    ghost function IncludedValues(): seq<real>
      reads this, BoundScales(y)
      requires x.Some? && (IsQuantitative(x.value) ==> y.Some? && y.value.scale.Some?)
    {
      var lr := EdgeIntersections(y, x.value);
      Ys(lr.0 + lr.1)
    }

    /** The extent of a binding: the base extent, widened by the edge values
        when smooth autoranging applies to it. A base span only grows. */
    method ComputeExtent(base: Extent, forX: bool) returns (extent: Extent)
      requires !base.InfiniteInverted?
      requires SmoothApplies(forX) && IsQuantitative(x.value) ==> y.Some? && y.value.scale.Some?
      ensures !SmoothApplies(forX) ==> extent == base
      ensures SmoothApplies(forX) ==> extent == Widen(base, IncludedValues())
      ensures base.Span? ==> extent.Span? && extent.lo <= base.lo && base.hi <= extent.hi
    {
      if !SmoothApplies(forX) {
        return base;
      }
      var left, right := EdgeIntersectionPoints(y, x.value);
      var includedValues := Ys(left + right);
      if |includedValues| == 0 {
        // Math.max() and Math.min() of nothing: [Infinity, -Infinity] for an
        // empty base, and no change to a base span.
        return if base.NoExtent? then InfiniteInverted else base;
      }
      var maxIncludedValue := MaxOf(includedValues);
      var minIncludedValue := MinOf(includedValues);
      var lo, hi;
      if base.NoExtent? {
        lo, hi := minIncludedValue, maxIncludedValue;
      } else {
        lo, hi := base.lo, base.hi;
      }
      if minIncludedValue < lo {
        lo := minIncludedValue;
      }
      if maxIncludedValue > hi {
        hi := maxIncludedValue;
      }
      extent := Span(lo, hi);
    }

    /** The line's attribute projectors: the path "d" as given, every
        inherited attribute evaluated on the first record of the list. */
    method GenerateAttrToProjector(inherited: map<string, RecordProjector<D>>, path: ListProjector<D>)
      returns (attrToProjector: map<string, ListProjector<D>>)
      requires "d" !in inherited
      ensures IsLineProjection(attrToProjector, inherited, path)
    {
      attrToProjector := map["d" := path];
      var todo := inherited.Keys;
      while todo != {}
        invariant todo <= inherited.Keys
        invariant attrToProjector.Keys == (inherited.Keys - todo) + {"d"}
        invariant attrToProjector["d"] == path
        invariant forall a :: a in inherited.Keys - todo ==> attrToProjector[a] == FirstRecord(inherited[a])
        decreases todo
      {
        var attribute :| attribute in todo;
        attrToProjector := attrToProjector[attribute := FirstRecord(inherited[attribute])];
        todo := todo - {attribute};
      }
    }

    /** The draw steps of a render. The path of a line is built by
        `lineProjector` from an x and a y projector; the main step draws it
        from the scaled x and y accessors. When animating, a reset step comes
        first, drawing the same x with every record at the reset baseline of
        the y domain; otherwise the main step is alone. */
    method GenerateDrawSteps(animate: bool, inherited: map<string, RecordProjector<D>>,
                             lineProjector: (NumberProjector<D>, NumberProjector<D>) -> ListProjector<D>)
      returns (steps: seq<DrawStep<D>>)
      requires "d" !in inherited
      requires x.Some? && y.Some?
      requires animate ==> y.value.scale.Some?
      ensures |steps| == if animate then 2 else 1
      ensures steps[|steps| - 1].animator == Main
      ensures IsLineProjection(steps[|steps| - 1].attrToProjector, inherited,
                               lineProjector(ScaledAccessor(x.value), ScaledAccessor(y.value)))
      ensures animate ==> steps[0].animator == Reset
      ensures animate ==> IsLineProjection(steps[0].attrToProjector, inherited,
                            lineProjector(ScaledAccessor(x.value),
                                          ResetYFunction(y.value.scale.value.scale, y.value.scale.value.domain)))
    {
      var path := lineProjector(ScaledAccessor(x.value), ScaledAccessor(y.value));
      steps := [];
      if animate {
        var attrToProjector := GenerateAttrToProjector(inherited, path);
        var yScale := y.value.scale.value;
        attrToProjector := attrToProjector["d" := lineProjector(ScaledAccessor(x.value), ResetYFunction(yScale.scale, yScale.domain))];
        steps := steps + [DrawStep(attrToProjector, Reset)];
      }
      var mainAttrToProjector := GenerateAttrToProjector(inherited, path);
      steps := steps + [DrawStep(mainAttrToProjector, Main)];
    }

    /** The visible entity nearest to the query point, by x distance and then
        by y distance; the first of equally near entities wins, and there is
        none when no entity is visible. `at` is its position in the list. */
    method EntityNearest(entities: seq<PlotEntity<D>>, visible: (Point, D, int, Dataset<D>) -> bool, query: Point)
      returns (closest: Option<PlotEntity<D>>, ghost at: nat)
      ensures closest.None? <==> forall j :: 0 <= j < |entities| ==> !IsVisible(visible, entities[j])
      ensures closest.Some? ==> at < |entities| && closest.value == entities[at] && IsVisible(visible, entities[at])
      ensures closest.Some? ==> forall j :: 0 <= j < |entities| && IsVisible(visible, entities[j]) ==>
                                  !Closer(Distances(query, entities[j]), Distances(query, entities[at]))
      ensures closest.Some? ==> forall j :: 0 <= j < at && IsVisible(visible, entities[j]) ==>
                                  Closer(Distances(query, entities[at]), Distances(query, entities[j]))
    {
      // `closest.None?` stands for the initial minimum distances of Infinity,
      // which every visible entity improves on.
      closest, at := None, 0;
      var minXDist, minYDist := 0.0, 0.0;
      var k := 0;
      while k < |entities|
        invariant 0 <= k <= |entities|
        invariant closest.None? <==> forall j :: 0 <= j < k ==> !IsVisible(visible, entities[j])
        invariant closest.Some? ==> at < k && closest.value == entities[at] && IsVisible(visible, entities[at])
        invariant closest.Some? ==> (minXDist, minYDist) == Distances(query, entities[at])
        invariant closest.Some? ==> forall j :: 0 <= j < k && IsVisible(visible, entities[j]) ==>
                                      !Closer(Distances(query, entities[j]), Distances(query, entities[at]))
        invariant closest.Some? ==> forall j :: 0 <= j < at && IsVisible(visible, entities[j]) ==>
                                      Closer(Distances(query, entities[at]), Distances(query, entities[j]))
      {
        var entity := entities[k];
        if visible(entity.position, entity.datum, entity.index, entity.dataset) {
          var xDist := Abs(query.x - entity.position.x);
          var yDist := Abs(query.y - entity.position.y);
          if closest.None? || xDist < minXDist || (xDist == minXDist && yDist < minYDist) {
            closest, at := Some(entity), k;
            minXDist, minYDist := xDist, yDist;
          }
        }
        k := k + 1;
      }
    }
  }
}
