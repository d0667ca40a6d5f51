/**
 * The per-bar geometry of the stacked bar plot
 * (src/components/plots/stackedBarPlot.ts): which attribute carries the
 * stacked value, the stack-offset lookup, and the start, end, |end - start| and
 * drawn origin of a bar on the primary (value) axis.
 */
module StackedBarGeometry {
  import opened Wrappers
  import opened Plottable

  /** The attribute carrying the stacked value: "y" on a vertical plot, "x"
      on a horizontal one. */
  function ValueAttribute(isVertical: bool): (attr: string)
    ensures attr == KeyAttribute(!isVertical)
    ensures attr != KeyAttribute(isVertical)
  {
    if isVertical then "y" else "x"
  }

  /** The attribute carrying the category key: the other of "x" and "y". */
  function KeyAttribute(isVertical: bool): (attr: string)
    ensures attr == "x" || attr == "y"
  {
    if isVertical then "x" else "y"
  }

  /** The stacking record of one (dataset, key): where the dataset's segment
      starts on the value axis, and its own value. */
  datatype StackedDatum = StackedDatum(offset: real, value: real)

  /** Stack offsets by dataset (its identity) and then by category key. */
  type StackOffsets = map<nat, map<string, StackedDatum>>

  /** The failure of projecting a record whose dataset or key has no stack
      entry: `.get(...)` yields undefined and reading `.offset` off it throws. */
  datatype StackError = MissingStackEntry

  /** A projector of the bar plot: a value for one record, or the failure of
      its stack lookup. */
  type BarProjector<!D> = (D, int, Dataset<D>) -> Result<AttrValue, StackError>

  predicate HasEntry(offsets: StackOffsets, dataset: nat, key: string) {
    dataset in offsets && key in offsets[dataset]
  }

  /** `stackOffsets.get(dataset).get(key)`, failing when either is absent. */
  function StackEntry(offsets: StackOffsets, dataset: nat, key: string): (r: Result<StackedDatum, StackError>)
    ensures r.Success? <==> HasEntry(offsets, dataset, key)
    ensures r.Success? ==> r.value == offsets[dataset][key]
  {
    if dataset in offsets && key in offsets[dataset] then Success(offsets[dataset][key])
    else Failure(MissingStackEntry)
  }

  /** The screen position where a bar's segment starts: the scaled offset. */
  function BarStart(scale: real -> real, offset: real): real {
    scale(offset)
  }

  /** The screen position where a bar's segment ends: the scaled sum of the
      record's value and the offset. */
  function BarEnd(scale: real -> real, value: real, offset: real): real {
    scale(value + offset)
  }

  /** A bar runs from its start towards its end in the direction of its
      value's sign: under an increasing scale it ends at or past its start
      exactly when the value is not negative, and under a decreasing scale at
      or before it. */
  lemma BarDirection(scale: real -> real, value: real, offset: real)
    requires Increasing(scale) || Decreasing(scale)
    ensures Increasing(scale) ==> (BarStart(scale, offset) <= BarEnd(scale, value, offset) <==> value >= 0.0)
    ensures Decreasing(scale) ==> (BarEnd(scale, value, offset) <= BarStart(scale, offset) <==> value >= 0.0)
  {
    if value < 0.0 {
      assert value + offset < offset;
    } else if value > 0.0 {
      assert offset < value + offset;
    }
  }

  /** Stacking: when the next dataset's segment starts at this one's offset
      plus value, as stack offsets are accumulated, it starts on screen where
      this bar ends, so the bars of a stack meet without gap or overlap. */
  lemma StackedBarsMeet(scale: real -> real, below: StackedDatum, above: StackedDatum)
    requires above.offset == below.offset + below.value
    ensures BarStart(scale, above.offset) == BarEnd(scale, below.value, below.offset)
  {
    assert below.value + below.offset == above.offset;
  }

  /** `heightF`: the distance between a bar's start and end, whichever is
      larger. The plot uses it only to step a horizontal bar's origin back;
      the drawn width and height attributes are the base bar plot's. */
  function BarHeight(start: real, end: real): (h: real)
    ensures h >= 0.0
    ensures h == Max(start, end) - Min(start, end)
  {
    Abs(end - start)
  }

  /** The value attribute of a bar: its start for a negative value and its
      end otherwise; a horizontal bar then steps back by |end - start|. */
  function BarOrigin(isVertical: bool, value: real, start: real, end: real): (origin: real)
    ensures isVertical ==> origin == start || origin == end
    ensures !isVertical ==> origin == start - BarHeight(start, end) || origin == end - BarHeight(start, end)
  {
    var attr := if value < 0.0 then start else end;
    if isVertical then attr else attr - BarHeight(start, end)
  }

  /** The value attribute of one record: its stack entry is looked up by
      dataset and by the key accessor's text, and the bar placed from there. */
  function BarPosition<D>(isVertical: bool, scale: real -> real, keyAccessor: Accessor<D>,
                          valueAccessor: Accessor<D>, offsets: StackOffsets,
                          d: D, i: int, ds: Dataset<D>): (r: Result<real, StackError>)
    ensures r.Failure? <==> !HasEntry(offsets, ds.id, keyAccessor.text(d, i, ds))
    ensures r.Success? ==>
      var offset := offsets[ds.id][keyAccessor.text(d, i, ds)].offset;
      var value := valueAccessor.number(d, i, ds);
      r.value == BarOrigin(isVertical, value, BarStart(scale, offset), BarEnd(scale, value, offset))
  {
    match StackEntry(offsets, ds.id, keyAccessor.text(d, i, ds))
    case Failure(e) => Failure(e)
    case Success(entry) =>
      var value := valueAccessor.number(d, i, ds);
      Success(BarOrigin(isVertical, value, BarStart(scale, entry.offset), BarEnd(scale, value, entry.offset)))
  }

  /** The projector of the value attribute. */
  function ValueProjector<D>(isVertical: bool, scale: real -> real, keyAccessor: Accessor<D>,
                             valueAccessor: Accessor<D>, offsets: StackOffsets): BarProjector<D>
  {
    (d: D, i: int, ds: Dataset<D>) =>
      match BarPosition(isVertical, scale, keyAccessor, valueAccessor, offsets, d, i, ds)
      case Failure(e) => Failure(e)
      case Success(p) => Success(Number(p))
  }

  /** On a vertical plot whose value scale decreases (screen y grows
      downwards), the origin is the top of the bar, whatever the sign of the
      value, and origin plus |end - start| is its bottom. */
  lemma VerticalOriginIsTop(scale: real -> real, value: real, offset: real)
    requires Decreasing(scale)
    ensures var start, end := BarStart(scale, offset), BarEnd(scale, value, offset);
      && BarOrigin(true, value, start, end) == Min(start, end)
      && BarOrigin(true, value, start, end) + BarHeight(start, end) == Max(start, end)
  {
    if value < 0.0 {
      assert value + offset < offset;
      assert scale(offset) < scale(value + offset);
    } else if value > 0.0 {
      assert offset < value + offset;
      assert scale(value + offset) < scale(offset);
    }
  }

  /** On a horizontal plot whose value scale increases, the origin is the
      left end of the bar, whatever the sign of the value, and origin plus
      |end - start| is its right end. */
  lemma HorizontalOriginIsLeft(scale: real -> real, value: real, offset: real)
    requires Increasing(scale)
    ensures var start, end := BarStart(scale, offset), BarEnd(scale, value, offset);
      && BarOrigin(false, value, start, end) == Min(start, end)
      && BarOrigin(false, value, start, end) + BarHeight(start, end) == Max(start, end)
  {
    if value < 0.0 {
      assert value + offset < offset;
      assert scale(value + offset) < scale(offset);
    } else if value > 0.0 {
      assert offset < value + offset;
      assert scale(offset) < scale(value + offset);
    }
  }

  /** Under a monotone scale, the span from the origin over |end - start|
      covers the screen image of every point of the stacked segment, from
      the offset to the offset plus the value. */
  lemma BarCoversSegment(isVertical: bool, scale: real -> real, value: real, offset: real, t: real)
    requires if isVertical then Decreasing(scale) else Increasing(scale)
    requires Min(offset, value + offset) <= t <= Max(offset, value + offset)
    ensures var start, end := BarStart(scale, offset), BarEnd(scale, value, offset);
      var origin := BarOrigin(isVertical, value, start, end);
      origin <= scale(t) <= origin + BarHeight(start, end)
  {
    var start, end := BarStart(scale, offset), BarEnd(scale, value, offset);
    if isVertical {
      VerticalOriginIsTop(scale, value, offset);
    } else {
      HorizontalOriginIsLeft(scale, value, offset);
    }
    MonotoneBetween(scale, offset, value + offset, t);
  }

  /** A monotone function maps a point between two others between their
      images. */
  lemma MonotoneBetween(f: real -> real, a: real, b: real, t: real)
    requires Increasing(f) || Decreasing(f)
    requires Min(a, b) <= t <= Max(a, b)
    ensures Min(f(a), f(b)) <= f(t) <= Max(f(a), f(b))
  {
    if t != a && t != b {
      if a < b {
        assert a < t < b;
        assert f(a) < f(t) < f(b) || f(b) < f(t) < f(a);
      } else {
        assert b < t < a;
        assert f(b) < f(t) < f(a) || f(a) < f(t) < f(b);
      }
    }
  }
}
