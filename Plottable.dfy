/**
 * The types the line plot and the stacked bar plot share with the rest of
 * the charting library: datasets, accessors, scales and their bindings,
 * points, plot entities and attribute projectors.
 */
module Plottable {
  import opened Wrappers

  /** An ordered list of data records. Datasets are compared by reference in
      the library; `id` stands for that identity. */
  datatype Dataset<D> = Dataset(id: nat, data: seq<D>)

  /** A caller-supplied accessor `(datum, index, dataset) -> value`, seen
      through the conversions the plots apply to what it returns:
      `String(...)` when the value is a category key, unary `+` when it is a
      number, and, where a line tests for gaps, the value as a coordinate,
      `None` when it is `null` or `NaN`. */
  datatype Accessor<!D> = Accessor(
    text: (D, int, Dataset<D>) -> string,
    number: (D, int, Dataset<D>) -> real,
    coordinate: (D, int, Dataset<D>) -> Option<real>)

  /** The two views of one accessor agree on a record: where the coordinate
      view has a value, it is the numeric value. */
  predicate CoherentAt<D>(a: Accessor<D>, d: D, i: int, ds: Dataset<D>) {
    a.coordinate(d, i, ds).Some? ==> a.coordinate(d, i, ds).value == a.number(d, i, ds)
  }

  /** A scale: maps domain values to screen space and back. `quantitative`
      records whether it is a QuantitativeScale; `domain` holds the first two
      entries of `domain()`. `scaleCoordinate` is the same `scale` applied to
      whatever an accessor returned, `null` and `NaN` included: `None` when
      the scaled result is `null` or `NaN`. */
  class Scale {
    const scale: real -> real
    const scaleCoordinate: Option<real> -> Option<real>
    const invert: real -> real
    const quantitative: bool
    var domain: (real, real)
    var snapsDomain: bool

    constructor (scale: real -> real, scaleCoordinate: Option<real> -> Option<real>,
                 invert: real -> real, quantitative: bool, domain: (real, real))
      ensures this.scale == scale && this.scaleCoordinate == scaleCoordinate && this.invert == invert
      ensures this.quantitative == quantitative && this.domain == domain
      ensures snapsDomain
    {
      this.scale := scale;
      this.scaleCoordinate := scaleCoordinate;
      this.invert := invert;
      this.quantitative := quantitative;
      this.domain := domain;
      snapsDomain := true;
    }
  }

  /** The two views of one scale agree: a present coordinate that stays
      present is scaled by `scale`. */
  ghost predicate CoherentScale(s: Scale) {
    forall v: real :: s.scaleCoordinate(Some(v)).Some? ==> s.scaleCoordinate(Some(v)).value == s.scale(v)
  }

  /** The scale neither drops a present coordinate (to `NaN`) nor turns a
      missing one into a number. */
  ghost predicate KeepsPresence(s: Scale) {
    forall v: Option<real> :: s.scaleCoordinate(v).Some? <==> v.Some?
  }

  /** An accessor bound to a property, with its scale if one was given. */
  datatype Binding<!D> = Binding(accessor: Accessor<D>, scale: Option<Scale>)

  /** Whether a binding's scale is a QuantitativeScale. */
  predicate IsQuantitative<D>(b: Binding<D>) {
    b.scale.Some? && b.scale.value.quantitative
  }

  /** The scale objects an optional binding refers to (empty or a singleton). */
  function BoundScales<D>(b: Option<Binding<D>>): set<Scale> {
    if b.Some? && b.value.scale.Some? then {b.value.scale.value} else {}
  }

  datatype Point = Point(x: real, y: real)

  /** One data record together with its rendered screen position. */
  datatype PlotEntity<D> = PlotEntity(datum: D, index: int, dataset: Dataset<D>, position: Point)

  /** A value a projector produces for a visual attribute. */
  datatype AttrValue = Number(n: real) | Text(s: string)

  /** A projector evaluated on one record; `None` stands for `null`. */
  type RecordProjector<!D> = (D, int, Dataset<D>) -> Option<AttrValue>

  /** A projector evaluated on a whole list of records (a line is drawn once
      per dataset, on the list of its records). */
  type ListProjector<!D> = (seq<D>, int, Dataset<D>) -> Option<AttrValue>

  /** A projector producing a screen coordinate for one record. */
  type NumberProjector<!D> = (D, int, Dataset<D>) -> real

  function Abs(x: real): real {
    if x < 0.0 then -x else x
  }

  function Min(a: real, b: real): real {
    if a <= b then a else b
  }

  function Max(a: real, b: real): real {
    if a <= b then b else a
  }

  /** The scale is strictly increasing. */
  ghost predicate Increasing(f: real -> real) {
    forall a: real, b: real :: a < b ==> f(a) < f(b)
  }

  /** The scale is strictly decreasing (the usual vertical screen axis). */
  ghost predicate Decreasing(f: real -> real) {
    forall a: real, b: real :: a < b ==> f(b) < f(a)
  }
}
