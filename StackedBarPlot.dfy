/**
 * The stacked bar plot (src/components/plots/stackedBarPlot.ts): a bar plot
 * whose bars with the same key are stacked across datasets. It keeps two
 * caches derived from its datasets and bindings, the stack offsets and the
 * stacked extent, and recomputes them together whenever a binding or a
 * dataset changes and the projectors are ready.
 *
 * The stacking itself (`computeStackOffsets`, `computeStackExtent`), the
 * base plot's value filter and its readiness test are not part of this
 * model; the plot is given them as functions when it is made.
 */
module StackedBarPlot {
  import opened Wrappers
  import opened Plottable
  import opened StackedBarGeometry

  /** A filter on records, as the base plot supplies for a property. */
  type Filter<!D> = (D, int, Dataset<D>) -> bool

  class StackedBar<D> {
    const isVertical: bool
    const computeStackOffsets: (seq<Dataset<D>>, Accessor<D>, Accessor<D>) -> StackOffsets
    const computeStackExtent: (StackOffsets, Filter<D>) -> seq<real>
    const valueFilterFor: string -> Filter<D>
    const projectorsReady: (Binding<D>, Binding<D>) -> bool

    var x: Option<Binding<D>>
    var y: Option<Binding<D>>
    var datasets: seq<Dataset<D>>
    var stackOffsets: StackOffsets
    var stackedExtent: seq<real>

    /** The binding of attribute "x" or "y". */
    function BindingFor(attr: string): Option<Binding<D>>
      reads this
    {
      if attr == "x" then x else if attr == "y" then y else None
    }

    /** The binding whose accessor gives the category key: x on a vertical
        plot, y on a horizontal one. */
    function KeyBinding(): (b: Option<Binding<D>>)
      reads this
      ensures b == BindingFor(KeyAttribute(isVertical))
    {
      if isVertical then x else y
    }

    /** The binding whose accessor gives the stacked value: y on a vertical
        plot, x on a horizontal one. */
    function ValueBinding(): (b: Option<Binding<D>>)
      reads this
      ensures b == BindingFor(ValueAttribute(isVertical))
    {
      if isVertical then y else x
    }

    /** The filter of the value property, which the stacked extent honours. */
    function PrimaryFilter(): Filter<D> {
      valueFilterFor(ValueAttribute(isVertical))
    }

    /** Whether both bindings exist and the base plot's projectors are ready. */
    predicate ProjectorsReady()
      reads this
    {
      x.Some? && y.Some? && projectorsReady(x.value, y.value)
    }

    /** The stack offsets of the current datasets under the current bindings. */
    function CurrentOffsets(): StackOffsets
      reads this
      requires ProjectorsReady()
    {
      computeStackOffsets(datasets, KeyBinding().value.accessor, ValueBinding().value.accessor)
    }

    /** The caches agree with each other (the extent is that of the offsets
        under the value filter), and while the projectors are ready they are
        those of the current datasets and bindings. */
    predicate Valid()
      reads this
    {
      && stackedExtent == computeStackExtent(stackOffsets, PrimaryFilter())
      && (ProjectorsReady() ==> stackOffsets == CurrentOffsets())
    }

    /** A new plot of the given orientation: no bindings, no datasets, no
        stack offsets and an empty stacked extent. */
    constructor (isVertical: bool,
                 computeStackOffsets: (seq<Dataset<D>>, Accessor<D>, Accessor<D>) -> StackOffsets,
                 computeStackExtent: (StackOffsets, Filter<D>) -> seq<real>,
                 valueFilterFor: string -> Filter<D>,
                 projectorsReady: (Binding<D>, Binding<D>) -> bool)
      requires computeStackExtent(map[], valueFilterFor(ValueAttribute(isVertical))) == []
      ensures this.isVertical == isVertical && this.computeStackOffsets == computeStackOffsets
      ensures this.computeStackExtent == computeStackExtent && this.valueFilterFor == valueFilterFor
      ensures this.projectorsReady == projectorsReady
      ensures x == None && y == None && datasets == []
      ensures stackOffsets == map[] && stackedExtent == []
      ensures Valid()
    {
      this.isVertical := isVertical;
      this.computeStackOffsets := computeStackOffsets;
      this.computeStackExtent := computeStackExtent;
      this.valueFilterFor := valueFilterFor;
      this.projectorsReady := projectorsReady;
      x := None;
      y := None;
      datasets := [];
      stackOffsets := map[];
      stackedExtent := [];
    }

    /** Recomputes both caches from the current datasets and bindings when the
        projectors are ready, and leaves them as they are otherwise. */
    method UpdateStackExtentsAndOffsets()
      modifies this`stackOffsets, this`stackedExtent
      ensures !ProjectorsReady() ==> stackOffsets == old(stackOffsets) && stackedExtent == old(stackedExtent)
      ensures ProjectorsReady() ==> stackOffsets == CurrentOffsets()
      ensures ProjectorsReady() ==> stackedExtent == computeStackExtent(stackOffsets, PrimaryFilter())
      ensures old(Valid()) ==> Valid()
      ensures ProjectorsReady() ==> Valid()
    {
      if !ProjectorsReady() {
        return;
      }
      var keyAccessor := if isVertical then x.value.accessor else y.value.accessor;
      var valueAccessor := if isVertical then y.value.accessor else x.value.accessor;
      var filter := valueFilterFor(if isVertical then "y" else "x");

      stackOffsets := computeStackOffsets(datasets, keyAccessor, valueAccessor);
      stackedExtent := computeStackExtent(stackOffsets, filter);
    }

    /** Binds x (with a scale when one is given) and then recomputes the
        caches. */
    method SetX(accessor: Accessor<D>, scale: Option<Scale>)
      requires Valid()
      modifies this`x, this`stackOffsets, this`stackedExtent
      ensures x == Some(Binding(accessor, scale))
      ensures ProjectorsReady() ==> stackOffsets == CurrentOffsets()
      ensures !ProjectorsReady() ==> stackOffsets == old(stackOffsets) && stackedExtent == old(stackedExtent)
      ensures Valid()
    {
      x := Some(Binding(accessor, scale));
      UpdateStackExtentsAndOffsets();
    }

    /** Binds y (with a scale when one is given) and then recomputes the
        caches. */
    method SetY(accessor: Accessor<D>, scale: Option<Scale>)
      requires Valid()
      modifies this`y, this`stackOffsets, this`stackedExtent
      ensures y == Some(Binding(accessor, scale))
      ensures ProjectorsReady() ==> stackOffsets == CurrentOffsets()
      ensures !ProjectorsReady() ==> stackOffsets == old(stackOffsets) && stackedExtent == old(stackedExtent)
      ensures Valid()
    {
      y := Some(Binding(accessor, scale));
      UpdateStackExtentsAndOffsets();
    }

    /** The hook run after the dataset list changed: recomputes the caches. */
    method OnDatasetUpdate()
      modifies this`stackOffsets, this`stackedExtent
      ensures !ProjectorsReady() ==> stackOffsets == old(stackOffsets) && stackedExtent == old(stackedExtent)
      ensures ProjectorsReady() ==> stackOffsets == CurrentOffsets()
      ensures old(stackedExtent == computeStackExtent(stackOffsets, PrimaryFilter())) ==>
                stackedExtent == computeStackExtent(stackOffsets, PrimaryFilter())
      ensures ProjectorsReady() ==> Valid()
    {
      UpdateStackExtentsAndOffsets();
    }

    /** Replaces the dataset list and runs the update hook, as the base plot
        does whenever a dataset is added, removed or changed. */
    method SetDatasets(newDatasets: seq<Dataset<D>>)
      requires Valid()
      modifies this`datasets, this`stackOffsets, this`stackedExtent
      ensures datasets == newDatasets
      ensures !ProjectorsReady() ==> stackOffsets == old(stackOffsets) && stackedExtent == old(stackedExtent)
      ensures ProjectorsReady() ==> stackOffsets == CurrentOffsets()
      ensures Valid()
    {
      datasets := newDatasets;
      OnDatasetUpdate();
    }

    /** After a property's extents were updated: the caches are recomputed
        for "x" and "y" when the projectors are ready, and only then. */
    method UpdateExtentsForProperty(property: string)
      requires Valid()
      modifies this`stackOffsets, this`stackedExtent
      ensures (property == "x" || property == "y") && ProjectorsReady() ==> stackOffsets == CurrentOffsets()
      ensures !((property == "x" || property == "y") && ProjectorsReady()) ==>
                stackOffsets == old(stackOffsets) && stackedExtent == old(stackedExtent)
      ensures Valid()
    {
      if (property == "x" || property == "y") && ProjectorsReady() {
        UpdateStackExtentsAndOffsets();
      }
    }

    /** The extents the value attribute's scale must cover: the stacked
        extent alone; other attributes keep the base plot's extents. */
    function ExtentsForProperty(attr: string, inherited: seq<seq<real>>): (extents: seq<seq<real>>)
      reads this
      ensures attr == ValueAttribute(isVertical) ==> extents == [stackedExtent]
      ensures attr != ValueAttribute(isVertical) ==> extents == inherited
    {
      var primaryAttr := if isVertical then "y" else "x";
      if attr == primaryAttr then [stackedExtent] else inherited
    }

    /** The bar plot's attribute projectors with the value attribute replaced
        by the stacked position of each record. */
    method GenerateAttrToProjector(inherited: map<string, BarProjector<D>>)
      returns (attrToProjector: map<string, BarProjector<D>>)
      requires x.Some? && y.Some? && ValueBinding().value.scale.Some?
      ensures attrToProjector.Keys == inherited.Keys + {ValueAttribute(isVertical)}
      ensures forall a :: a in inherited && a != ValueAttribute(isVertical) ==> attrToProjector[a] == inherited[a]
      ensures forall d, i, ds :: attrToProjector[ValueAttribute(isVertical)](d, i, ds) ==
                match BarPosition(isVertical, ValueBinding().value.scale.value.scale, KeyBinding().value.accessor,
                                  ValueBinding().value.accessor, stackOffsets, d, i, ds)
                case Failure(e) => Failure(e)
                case Success(p) => Success(Number(p))
    {
      attrToProjector := inherited;
      var valueAttr := if isVertical then "y" else "x";
      var keyAttr := if isVertical then "x" else "y";
      var primaryScale := if isVertical then y.value.scale.value else x.value.scale.value;
      var primaryAccessor := BindingFor(valueAttr).value.accessor;
      var keyAccessor := BindingFor(keyAttr).value.accessor;
      attrToProjector := attrToProjector[valueAttr :=
        ValueProjector(isVertical, primaryScale.scale, keyAccessor, primaryAccessor, stackOffsets)];
    }

    /** While the projectors are ready, the extent the value attribute's
        scale must cover is the stacked extent of the current datasets. */
    lemma PrimaryExtentIsCurrent()
      requires Valid() && ProjectorsReady()
      ensures ExtentsForProperty(ValueAttribute(isVertical), []) ==
                [computeStackExtent(CurrentOffsets(), PrimaryFilter())]
    {
    }
  }
}
