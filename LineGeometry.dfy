/**
 * The geometric rules of the line plot (src/plots/linePlot.ts), as
 * functions over screen-space points: the edge-crossing test and the
 * interpolation used by smooth autoranging, the widening of an extent by the
 * values found on the plot edges, the baseline of the grow-from-baseline
 * animation, the path-vertex test, and the first-record projection of line
 * attributes.
 */
module LineGeometry {
  import opened Wrappers
  import opened Plottable

  // ---------------------------------------------------------------------
  // Edge intersections
  // ---------------------------------------------------------------------

  /** The test the plot applies to a consecutive pair of points and an edge:
      `(prev < edge) === (edge <= curr)`. It holds exactly when one of the two
      points is strictly before the edge and the other is at or past it, so a
      detected crossing never has two equal coordinates. */
  function CrossesEdge(prev: real, curr: real, edge: real): (crossed: bool)
    ensures crossed <==> (prev < edge <= curr) || (curr < edge <= prev)
    ensures crossed ==> prev != curr
  {
    (prev < edge) == (edge <= curr)
  }

  /** `t * y2` lies between 0 and `y2` when `t = x1 / x2` is in [0, 1]. */
  lemma InterpolationBounds(x1: real, x2: real, y2: real)
    requires 0.0 < x1 <= x2 || x2 < x1 <= 0.0
    ensures x2 != 0.0
    ensures Min(0.0, y2) <= x1 * y2 / x2 <= Max(0.0, y2)
  {
    var t := x1 / x2;
    assert 0.0 <= t <= 1.0;
    assert x1 * y2 / x2 == t * y2;
    if y2 >= 0.0 {
      assert 0.0 <= t * y2 <= y2;
    } else {
      assert y2 <= t * y2 <= 0.0;
    }
  }

  /** The value-axis coordinate at which the segment from (prevX, prevY) to
      (currX, currY) meets the edge, by linear interpolation:
      `prevY + (edge - prevX) * (currY - prevY) / (currX - prevX)`. The
      point lies on the segment's line and between its two endpoints. */
  function EdgeValue(prevX: real, prevY: real, currX: real, currY: real, edge: real): (v: real)
    requires CrossesEdge(prevX, currX, edge)
    ensures Min(prevY, currY) <= v <= Max(prevY, currY)
    ensures (v - prevY) * (currX - prevX) == (edge - prevX) * (currY - prevY)
  {
    var x1 := edge - prevX;
    var x2 := currX - prevX;
    var y2 := currY - prevY;
    InterpolationBounds(x1, x2, y2);
    prevY + x1 * y2 / x2
  }

  /** The two accessor/scale pairs of an intersection scan: the "edge" axis,
      whose screen coordinate is compared with the edges, and the "value"
      axis, whose coordinate is interpolated and then inverted. */
  datatype EdgeAxes<!D> = EdgeAxes(
    edgeAccessor: Accessor<D>,
    edgeScale: real -> real,
    valueAccessor: Accessor<D>,
    valueScale: real -> real,
    valueInvert: real -> real)

  /** The screen-space point of record `i` of a dataset: x on the edge axis,
      y on the value axis. */
  function ScreenPoint<D>(ds: Dataset<D>, i: nat, axes: EdgeAxes<D>): Point
    requires i < |ds.data|
  {
    Point(axes.edgeScale(axes.edgeAccessor.number(ds.data[i], i, ds)),
          axes.valueScale(axes.valueAccessor.number(ds.data[i], i, ds)))
  }

  /** The screen-space points of all records of a dataset, in order. */
  function ScreenPoints<D>(ds: Dataset<D>, axes: EdgeAxes<D>): seq<Point> {
    seq(|ds.data|, i requires 0 <= i < |ds.data| => ScreenPoint(ds, i, axes))
  }

  /** One screen point per record, point i being record i's. */
  lemma ScreenPointsAt<D>(ds: Dataset<D>, axes: EdgeAxes<D>)
    ensures |ScreenPoints(ds, axes)| == |ds.data|
    ensures forall i :: 0 <= i < |ds.data| ==> ScreenPoints(ds, axes)[i] == ScreenPoint(ds, i, axes)
  {
  }

  /** The point recorded for a crossing pair: the screen-space edge itself as
      x, and the inverse-scaled interpolated value as y. */
  function EdgeHit(prev: Point, curr: Point, edge: real, invert: real -> real): (h: Point)
    requires CrossesEdge(prev.x, curr.x, edge)
    ensures h.x == edge
  {
    Point(edge, invert(EdgeValue(prev.x, prev.y, curr.x, curr.y, edge)))
  }

  /** Whether the pair (i - 1, i) of a point list crosses the edge. */
  predicate CrossesAt(pts: seq<Point>, i: int, edge: real)
    requires 1 <= i < |pts|
  {
    CrossesEdge(pts[i - 1].x, pts[i].x, edge)
  }

  /** The point recorded for the crossing pair (i - 1, i). */
  function HitAt(pts: seq<Point>, i: int, edge: real, invert: real -> real): Point
    requires 1 <= i < |pts| && CrossesAt(pts, i, edge)
  {
    EdgeHit(pts[i - 1], pts[i], edge, invert)
  }

  /** The intersection points one dataset contributes for one edge: one per
      consecutive pair that crosses it, in record order. A list of n points
      contributes at most n - 1 of them, so fewer than two contribute none. */
  function EdgeHits(pts: seq<Point>, edge: real, invert: real -> real): (hits: seq<Point>)
    ensures |hits| <= if |pts| == 0 then 0 else |pts| - 1
    ensures forall h :: h in hits ==> h.x == edge
    decreases |pts|
  {
    if |pts| < 2 then []
    else
      var n := |pts|;
      EdgeHits(pts[..n - 1], edge, invert)
        + (if CrossesAt(pts, n - 1, edge) then [HitAt(pts, n - 1, edge, invert)] else [])
  }

  /** Extending a point list by one point adds the hit of the new last pair,
      if it crosses the edge, to the end of the hits. */
  lemma EdgeHitsStep(pts: seq<Point>, i: int, edge: real, invert: real -> real)
    requires 1 <= i < |pts|
    ensures EdgeHits(pts[..i + 1], edge, invert)
         == EdgeHits(pts[..i], edge, invert)
            + (if CrossesAt(pts, i, edge) then [HitAt(pts, i, edge, invert)] else [])
  {
    assert pts[..i + 1][..i] == pts[..i];
  }

  /** The step of a scan that has recorded `base` followed by the hits of
      the first `i` points: recording the hit of pair (i - 1, i), if any,
      leaves `base` followed by the hits of the first `i + 1` points. */
  lemma ExtendHits(base: seq<Point>, pts: seq<Point>, i: int, edge: real, invert: real -> real)
    requires 1 <= i < |pts|
    ensures base + EdgeHits(pts[..i + 1], edge, invert)
         == (base + EdgeHits(pts[..i], edge, invert))
            + (if CrossesEdge(pts[i - 1].x, pts[i].x, edge) then [EdgeHit(pts[i - 1], pts[i], edge, invert)] else [])
  {
    EdgeHitsStep(pts, i, edge, invert);
  }

  /** A point is recorded for an edge if and only if it is the interpolated
      hit of some consecutive pair that crosses that edge. */
  lemma {:induction false} EdgeHitsAreCrossings(pts: seq<Point>, edge: real, invert: real -> real)
    ensures forall h :: h in EdgeHits(pts, edge, invert) <==>
      exists i :: 1 <= i < |pts| && CrossesAt(pts, i, edge) && h == HitAt(pts, i, edge, invert)
    decreases |pts|
  {
    if |pts| >= 2 {
      var n := |pts|;
      var init := pts[..n - 1];
      EdgeHitsAreCrossings(init, edge, invert);
      forall h | h in EdgeHits(pts, edge, invert)
        ensures exists i :: 1 <= i < n && CrossesAt(pts, i, edge) && h == HitAt(pts, i, edge, invert)
      {
        if h in EdgeHits(init, edge, invert) {
          var i :| 1 <= i < n - 1 && CrossesAt(init, i, edge) && h == HitAt(init, i, edge, invert);
          assert CrossesAt(pts, i, edge) && h == HitAt(pts, i, edge, invert);
        } else {
          assert CrossesAt(pts, n - 1, edge) && h == HitAt(pts, n - 1, edge, invert);
        }
      }
      forall h, i | 1 <= i < n && CrossesAt(pts, i, edge) && h == HitAt(pts, i, edge, invert)
        ensures h in EdgeHits(pts, edge, invert)
      {
        if i < n - 1 {
          assert CrossesAt(init, i, edge) && h == HitAt(init, i, edge, invert);
        }
      }
    }
  }

  /** When the inverse scale is monotone, the y of every recorded point lies
      between the inverted y values of the two records it was interpolated
      from. */
  lemma EdgeHitWithinSegment(pts: seq<Point>, i: int, edge: real, invert: real -> real)
    requires 1 <= i < |pts| && CrossesAt(pts, i, edge)
    requires Increasing(invert) || Decreasing(invert)
    ensures Min(invert(pts[i - 1].y), invert(pts[i].y)) <= HitAt(pts, i, edge, invert).y
    ensures HitAt(pts, i, edge, invert).y <= Max(invert(pts[i - 1].y), invert(pts[i].y))
  {
    var v := EdgeValue(pts[i - 1].x, pts[i - 1].y, pts[i].x, pts[i].y, edge);
    assert Min(pts[i - 1].y, pts[i].y) <= v <= Max(pts[i - 1].y, pts[i].y);
    if v != pts[i - 1].y && v != pts[i].y {
      if Increasing(invert) {
        if pts[i - 1].y <= pts[i].y {
          assert invert(pts[i - 1].y) < invert(v) < invert(pts[i].y);
        } else {
          assert invert(pts[i].y) < invert(v) < invert(pts[i - 1].y);
        }
      } else {
        if pts[i - 1].y <= pts[i].y {
          assert invert(pts[i].y) < invert(v) < invert(pts[i - 1].y);
        } else {
          assert invert(pts[i - 1].y) < invert(v) < invert(pts[i].y);
        }
      }
    }
  }

  /** The number of consecutive record pairs over all datasets. */
  function PairCount<D>(datasets: seq<Dataset<D>>): nat {
    if |datasets| == 0 then 0
    else
      var n := |datasets[|datasets| - 1].data|;
      PairCount(datasets[..|datasets| - 1]) + (if n == 0 then 0 else n - 1)
  }

  /** The intersection points of every dataset with one edge, dataset after
      dataset: at most one per consecutive pair of records, each on the edge. */
  function DatasetsEdgeHits<D>(datasets: seq<Dataset<D>>, axes: EdgeAxes<D>, edge: real): (hits: seq<Point>)
    ensures |hits| <= PairCount(datasets)
    ensures forall h :: h in hits ==> h.x == edge
  {
    if |datasets| == 0 then []
    else
      var k := |datasets| - 1;
      DatasetsEdgeHits(datasets[..k], axes, edge)
        + EdgeHits(ScreenPoints(datasets[k], axes), edge, axes.valueInvert)
  }

  /** Appending a dataset appends its hits. */
  lemma DatasetsEdgeHitsStep<D>(datasets: seq<Dataset<D>>, k: int, axes: EdgeAxes<D>, edge: real)
    requires 0 <= k < |datasets|
    ensures DatasetsEdgeHits(datasets[..k + 1], axes, edge)
         == DatasetsEdgeHits(datasets[..k], axes, edge) + EdgeHits(ScreenPoints(datasets[k], axes), edge, axes.valueInvert)
  {
    assert datasets[..k + 1][..k] == datasets[..k];
  }

  /** The y values of a list of points, in order. */
  function Ys(pts: seq<Point>): (ys: seq<real>)
    ensures |ys| == |pts|
    ensures forall i :: 0 <= i < |pts| ==> ys[i] == pts[i].y
  {
    if |pts| == 0 then [] else Ys(pts[..|pts| - 1]) + [pts[|pts| - 1].y]
  }

  // ---------------------------------------------------------------------
  // Extent widening
  // ---------------------------------------------------------------------

  /** An extent as the plot handles it: `[]`, `[lo, hi]`, or the
      `[Infinity, -Infinity]` that `Math.min`/`Math.max` of an empty list
      produce when no edge value was found and the base extent was empty. */
  datatype Extent = NoExtent | Span(lo: real, hi: real) | InfiniteInverted

  /** `Math.max.apply` over a non-empty list. */
  function MaxOf(s: seq<real>): (m: real)
    requires |s| > 0
    ensures m in s
    ensures forall v :: v in s ==> v <= m
  {
    if |s| == 1 then s[0]
    else
      assert s == [s[0]] + s[1..];
      Max(s[0], MaxOf(s[1..]))
  }

  /** `Math.min.apply` over a non-empty list. */
  function MinOf(s: seq<real>): (m: real)
    requires |s| > 0
    ensures m in s
    ensures forall v :: v in s ==> m <= v
  {
    if |s| == 1 then s[0]
    else
      assert s == [s[0]] + s[1..];
      Min(s[0], MinOf(s[1..]))
  }

  /** The base extent widened to cover the included values. With no included
      value the base comes back unchanged, or `[Infinity, -Infinity]` when it
      was empty. Otherwise the result is a span that contains the base and
      every included value, and an empty base becomes exactly
      `[min(included), max(included)]`. */
  function Widen(base: Extent, included: seq<real>): (r: Extent)
    requires !base.InfiniteInverted?
    ensures |included| == 0 ==> r == (if base.NoExtent? then InfiniteInverted else base)
    ensures |included| > 0 ==> r.Span?
    ensures |included| > 0 ==> forall v :: v in included ==> r.lo <= v <= r.hi
    ensures |included| > 0 && base.Span? ==> r.lo <= base.lo && base.hi <= r.hi
    ensures |included| > 0 && base.NoExtent? ==> r.lo in included && r.hi in included
  {
    if |included| == 0 then
      (if base.NoExtent? then InfiniteInverted else base)
    else
      var maxIncluded := MaxOf(included);
      var minIncluded := MinOf(included);
      match base
      case NoExtent => Span(minIncluded, maxIncluded)
      case Span(lo, hi) =>
        Span(if minIncluded < lo then minIncluded else lo,
             if maxIncluded > hi then maxIncluded else hi)
  }

  /** The widened extent is the smallest span covering the base and every
      included value: any other such span contains it. */
  lemma WidenIsLeastCover(base: Extent, included: seq<real>, lo: real, hi: real)
    requires !base.InfiniteInverted? && |included| > 0
    requires base.Span? ==> lo <= base.lo && base.hi <= hi
    requires forall v :: v in included ==> lo <= v <= hi
    ensures lo <= Widen(base, included).lo && Widen(base, included).hi <= hi
  {
    assert MinOf(included) in included && MaxOf(included) in included;
  }

  /** Widening twice by the same values is widening once. */
  lemma WidenIdempotent(base: Extent, included: seq<real>)
    requires base.Span? || (base.NoExtent? && |included| > 0)
    ensures Widen(Widen(base, included), included) == Widen(base, included)
  {
  }

  // ---------------------------------------------------------------------
  // Reset baseline, path vertices, first-record attributes
  // ---------------------------------------------------------------------

  /** The domain value the reset (animation start) line is drawn at: the
      domain maximum when the whole domain is negative, the domain minimum when
      it is positive, and 0 otherwise. That is 0 clamped into the domain: the
      domain value closest to 0. */
  function ResetStartValue(d0: real, d1: real): (v: real)
    ensures Min(d0, d1) <= v <= Max(d0, d1)
    ensures forall w :: Min(d0, d1) <= w <= Max(d0, d1) ==> Abs(v) <= Abs(w)
    ensures Min(d0, d1) <= 0.0 <= Max(d0, d1) ==> v == 0.0
  {
    var domainMax := Max(d0, d1);
    var domainMin := Min(d0, d1);
    if domainMax < 0.0 then domainMax
    else if domainMin > 0.0 then domainMin
    else 0.0
  }

  /** The y projector of the reset line: every record is drawn at the scaled
      reset start value of the y domain. */
  function ResetYFunction<D>(scale: real -> real, domain: (real, real)): NumberProjector<D>
  {
    var scaledStartValue := scale(ResetStartValue(domain.0, domain.1));
    (d: D, i: int, ds: Dataset<D>) => scaledStartValue
  }

  /** The reset y projector ignores its arguments: whatever the record, it
      gives the scaled domain value closest to 0. */
  lemma ResetYIsConstant<D>(scale: real -> real, domain: (real, real), d: D, i: int, ds: Dataset<D>)
    ensures ResetYFunction(scale, domain)(d, i, ds) == scale(ResetStartValue(domain.0, domain.1))
  {
  }

  /** `Plot._scaledAccessor(binding)`: the accessor's numeric value, passed
      through the binding's scale when it has one. */
  function ScaledAccessor<D>(b: Binding<D>): NumberProjector<D> {
    if b.scale.Some? then
      var scale := b.scale.value.scale;
      (d: D, i: int, ds: Dataset<D>) => scale(b.accessor.number(d, i, ds))
    else
      b.accessor.number
  }

  /** `Plot._scaledAccessor(binding)(d, i, dataset)` as a coordinate: the
      accessor's value passed through the binding's scale when it has one,
      `None` when the result is `null` or `NaN`. The scale decides: it may
      drop a coordinate or give a missing one a position. */
  function ScaledCoordinate<D>(b: Binding<D>, d: D, i: int, ds: Dataset<D>): Option<real> {
    if b.scale.Some? then b.scale.value.scaleCoordinate(b.accessor.coordinate(d, i, ds))
    else b.accessor.coordinate(d, i, ds)
  }

  /** Where the accessor's two views agree and so do the scale's, a present
      coordinate that stays present after scaling is the value the line
      projector draws at. */
  lemma ScaledCoordinateIsDrawn<D>(b: Binding<D>, d: D, i: int, ds: Dataset<D>)
    requires CoherentAt(b.accessor, d, i, ds)
    requires b.scale.Some? ==> CoherentScale(b.scale.value)
    ensures b.accessor.coordinate(d, i, ds).Some? && ScaledCoordinate(b, d, i, ds).Some? ==>
              ScaledCoordinate(b, d, i, ds).value == ScaledAccessor(b)(d, i, ds)
  {
    var raw := b.accessor.coordinate(d, i, ds);
    if b.scale.Some? && ScaledCoordinate(b, d, i, ds).Some? {
      var s := b.scale.value;
      if raw.Some? {
        assert s.scaleCoordinate(Some(raw.value)).value == s.scale(raw.value);
      }
    }
  }

  /** The `definedProjector` of a line: whether a record is a vertex of the
      drawn path, that is, whether neither scaled coordinate is `null` or
      `NaN`. */
  function Defined<D>(xBinding: Binding<D>, yBinding: Binding<D>, d: D, i: int, ds: Dataset<D>): bool {
    var positionX := ScaledCoordinate(xBinding, d, i, ds);
    var positionY := ScaledCoordinate(yBinding, d, i, ds);
    positionX != None && positionY != None
  }

  /** With scales that keep presence (neither drop a coordinate nor place a
      missing one), a record is a vertex exactly when neither of its raw x
      and y accessor values is `null` or `NaN`. */
  lemma DefinedIffPresent<D>(xBinding: Binding<D>, yBinding: Binding<D>, d: D, i: int, ds: Dataset<D>)
    requires xBinding.scale.Some? ==> KeepsPresence(xBinding.scale.value)
    requires yBinding.scale.Some? ==> KeepsPresence(yBinding.scale.value)
    ensures Defined(xBinding, yBinding, d, i, ds) <==>
              xBinding.accessor.coordinate(d, i, ds).Some? && yBinding.accessor.coordinate(d, i, ds).Some?
  {
    var rawX, rawY := xBinding.accessor.coordinate(d, i, ds), yBinding.accessor.coordinate(d, i, ds);
    if xBinding.scale.Some? {
      assert xBinding.scale.value.scaleCoordinate(rawX).Some? <==> rawX.Some?;
    }
    if yBinding.scale.Some? {
      assert yBinding.scale.value.scaleCoordinate(rawY).Some? <==> rawY.Some?;
    }
  }

  /** The indices, among the first `n` records of a dataset, of the records
      the path joins, in record order. */
  function VerticesUpTo<D>(xBinding: Binding<D>, yBinding: Binding<D>, ds: Dataset<D>, n: nat): (v: seq<nat>)
    requires n <= |ds.data|
    ensures forall k :: 0 <= k < |v| ==> v[k] < n
    decreases n
  {
    if n == 0 then []
    else
      VerticesUpTo(xBinding, yBinding, ds, n - 1)
        + (if Defined(xBinding, yBinding, ds.data[n - 1], n - 1, ds) then [n - 1] else [])
  }

  /** The indices of the records of a dataset that the path joins. */
  function Vertices<D>(xBinding: Binding<D>, yBinding: Binding<D>, ds: Dataset<D>): seq<nat> {
    VerticesUpTo(xBinding, yBinding, ds, |ds.data|)
  }

  predicate StrictlyIncreasing(s: seq<nat>) {
    forall j, k :: 0 <= j < k < |s| ==> s[j] < s[k]
  }

  /** A record is listed exactly when both of its coordinates are present,
      and the list is strictly increasing, so each record is listed once and
      in the order of the dataset. */
  lemma {:induction false} VerticesUpToExactly<D>(xBinding: Binding<D>, yBinding: Binding<D>, ds: Dataset<D>, n: nat)
    requires n <= |ds.data|
    ensures forall i: nat :: i in VerticesUpTo(xBinding, yBinding, ds, n) <==>
              i < n && ScaledCoordinate(xBinding, ds.data[i], i, ds).Some? && ScaledCoordinate(yBinding, ds.data[i], i, ds).Some?
    ensures StrictlyIncreasing(VerticesUpTo(xBinding, yBinding, ds, n))
    decreases n
  {
    if n > 0 {
      VerticesUpToExactly(xBinding, yBinding, ds, n - 1);
      var prefix := VerticesUpTo(xBinding, yBinding, ds, n - 1);
      var v := VerticesUpTo(xBinding, yBinding, ds, n);
      forall j, k | 0 <= j < k < |v|
        ensures v[j] < v[k]
      {
        assert v[j] == prefix[j];
        if k < |prefix| {
          assert v[k] == prefix[k];
        } else {
          assert v[k] == n - 1 && prefix[j] < n - 1;
        }
      }
    }
  }

  /** Over a whole dataset: the records the path joins are exactly those the
      `defined` test accepts. */
  lemma VerticesAreDefined<D>(xBinding: Binding<D>, yBinding: Binding<D>, ds: Dataset<D>)
    ensures forall i: nat :: i in Vertices(xBinding, yBinding, ds) <==>
              i < |ds.data| && Defined(xBinding, yBinding, ds.data[i], i, ds)
  {
    VerticesUpToExactly(xBinding, yBinding, ds, |ds.data|);
  }

  /** A record projector turned into a projector over a dataset's record
      list: it evaluates on the first record, and gives null for an empty
      list. */
  function FirstRecord<D>(p: RecordProjector<D>): ListProjector<D>
  {
    (data: seq<D>, i: int, ds: Dataset<D>) => if |data| > 0 then p(data[0], i, ds) else None
  }

  /** A first-record projector only looks at the first record: two lists that
      are both empty, or that start with the same record, project to the same
      value, which is null for the empty list and the record projector's value
      on the first record otherwise. */
  lemma FirstRecordOnly<D>(p: RecordProjector<D>, data1: seq<D>, data2: seq<D>, i: int, ds: Dataset<D>)
    requires |data1| == 0 <==> |data2| == 0
    requires |data1| > 0 ==> data1[0] == data2[0]
    ensures FirstRecord(p)(data1, i, ds) == FirstRecord(p)(data2, i, ds)
    ensures |data1| == 0 ==> FirstRecord(p)(data1, i, ds) == None
    ensures |data1| > 0 ==> FirstRecord(p)(data1, i, ds) == p(data1[0], i, ds)
  {
  }
}
