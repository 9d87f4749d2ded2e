# kquickcharts core, modelled in Dafny

This project models the stateful bookkeeping of KDE Quick Charts:

- **Data sources** (`datasources.dfy`, module `DataSources`). A chart sees a data source as an item count plus the item it returns for each index. Items are `Variant`s: empty, a number or text. `SingleValueSource` holds one value. Its setter reports a change only when the value really changes.
- **Axis ranges** (`ranges.dfy`, module `Ranges`). `RangeGroup` holds a fixed range (`from`, `to`) or computes one from the sources. The computed range is a minimum/maximum fold. The end is then clamped to `minimum` and rounded up to a whole multiple of `increment`. `qreal` is modelled as `real`. The two start values of the fold are kept exactly as written: the largest double, and the smallest *positive* double. Because of the second one, a computed end is always positive.
- **Legend** (`legend.dfy`, module `Legend`). `LegendModel` decides how many rows a legend has from the chart's indexing mode. It rebuilds the row list, or refreshes it in place. It coalesces update requests through one "update queued" flag.
- **Line chart** (`line_chart.dfy`, module `LineCharts`). A paint does the following:
  - it recomputes the range when a data change invalidated it;
  - when stacking is on, it forgets the series remembered from the last paint;
  - it draws value source `i` into child `n - 1 - i` of the paint node, appending children as needed;
  - it removes surplus trailing children.
  
  Drawing a source works like this:
  - it fills an array with one normalised point per X step, from the front or from the back depending on the direction;
  - it stacks the series onto the previous one, only when the two have the same length;
  - it remembers the result and hands it, possibly smoothed, to the child.

The per-paint behaviour is specified by the function `Painted`. It gives the series drawn for each source. The lemmas about it prove the stacking rule over a whole paint:
- the first series is never stacked;
- series `i` is the column sum of sources `0..i`.

## Model

| member | source | states |
|---|---|---|
| DataSources.ToReal | src/LineChart.cpp:148 | a number converts to itself; anything else converts to 0 |
| DataSources.SingleValueSource.Item | src/SingleValueSource.cpp:13-17 | the item at every index is the stored value |
| DataSources.SingleValueSource.ItemCount | src/SingleValueSource.cpp:19-22 | the item count is always 1 |
| DataSources.SingleValueSource.Value | src/SingleValueSource.cpp:24-27 | the value is the stored value |
| DataSources.SingleValueSource.AsSource | src/SingleValueSource.cpp:13-22 | seen as a chart data source, it has one item and returns the stored value at every index |
| DataSources.SingleValueSource.SetValue | src/SingleValueSource.cpp:29-36 | afterwards `Value()` is the new value; a change is signalled exactly when the value differs from the old one |
| Ranges.LowestIsMinimum | src/RangeGroup.cpp:129-139 | the folded minimum is at most the start value and every source's minimum, and it equals one of them |
| Ranges.HighestIsMaximum | src/RangeGroup.cpp:130-139 | the folded maximum is at least the start value and every source's maximum, and it equals one of them |
| Ranges.Ceil | src/RangeGroup.cpp:144 | the ceiling is the least integer not below x |
| Ranges.ClampedEnd | src/RangeGroup.cpp:142-145 | the end is at least `minimum` and the unclamped end; without a positive increment it is their maximum; with one it is a whole multiple of the increment in `[clamped, clamped + increment)` |
| Ranges.RoundedUpBounds | src/RangeGroup.cpp:144 | `increment * ceil(x / increment)` lies in `[x, x + increment)` |
| Ranges.WholeMultiple | src/RangeGroup.cpp:144 | a whole number of increments divided by the increment is whole |
| Ranges.RangeGroup.Distance | src/RangeGroup.cpp:83-86 | `from + distance == to` |
| Ranges.RangeGroup.IsValid | src/RangeGroup.cpp:118-121 | valid iff automatic or the distance is positive |
| Ranges.RangeGroup.SetFrom | src/RangeGroup.cpp:43-51 | changes `from` and signals exactly when the new value is not fuzzy-equal to the old one |
| Ranges.RangeGroup.SetTo | src/RangeGroup.cpp:58-66 | changes `to` and signals exactly when the new value is not fuzzy-equal to the old one |
| Ranges.RangeGroup.SetAutomatic | src/RangeGroup.cpp:73-81 | stores the flag; signals exactly when it differs |
| Ranges.RangeGroup.SetMinimum | src/RangeGroup.cpp:93-101 | stores the minimum; signals exactly when it differs |
| Ranges.RangeGroup.SetIncrement | src/RangeGroup.cpp:108-116 | stores the increment; signals exactly when it differs |
| Ranges.RangeGroup.CalculateRange | src/RangeGroup.cpp:123-152 | a manual range starts at `from` and ends at clamped/rounded `to`; an automatic one starts at the fold of the minima and ends at the clamped/rounded fold of the maxima. In automatic mode the start is at most every source's minimum, the end at least every source's maximum, and the end is positive; in both modes the end is at least `minimum`, and distance = end − start |
| Legend.AccumulateIsTotal | src/decorations/LegendModel.cpp:215-217 | the left fold over item counts equals the start value plus the sum of all item counts |
| Legend.CountItems | src/decorations/LegendModel.cpp:200-222 | first source's item count (0 without sources), number of sources, or the sum of all item counts, by indexing mode |
| Legend.OneRowPerSingleValueSource | src/decorations/LegendModel.cpp:211-218 | when every source holds one item, counting all values gives one row per source |
| Legend.SingleValueSourcesCount | src/SingleValueSource.cpp:13-22 | single-value sources seen by a chart count one row each when all values are counted, one row for the first source's values, and answer with their stored value at every index |
| Legend.OneItemEach | src/decorations/LegendModel.cpp:215-217 | the sum of item counts of one-item sources is their number |
| Legend.LegendModel.RowCount | src/decorations/LegendModel.cpp:43-50 | 0 under a valid parent, otherwise the number of rows |
| Legend.LegendModel.QueueUpdate | src/decorations/LegendModel.cpp:108-114 | afterwards an update is queued; a call is scheduled exactly when none was queued before |
| Legend.LegendModel.SetChart | src/decorations/LegendModel.cpp:74-90 | the same chart changes nothing; another chart is stored and queues an update |
| Legend.LegendModel.SetSourceIndex | src/decorations/LegendModel.cpp:97-106 | the same index changes nothing; another index is stored and queues an update |
| Legend.LegendModel.Update | src/decorations/LegendModel.cpp:116-168 | always clears the queued flag. No chart leaves the rows alone. Neither colour nor name source, or a non-positive count, leaves no rows. Otherwise there are exactly `CountItems` rows, row `i` with the name and colour of item `i`, and a value that is item 0 of source `i` for a negative source index and empty otherwise |
| Legend.LegendModel.UpdateData | src/decorations/LegendModel.cpp:170-198 | a changed count leaves the rows and queues an update; an unchanged count keeps the length and rewrites every row as `Update` would build it |
| LineCharts.SeriesPoints | src/LineChart.cpp:144-157 | a series has `distanceX` points. Item `startX + k` sits at index `k` (ZeroAtStart) or `distanceX - 1 - k` (ZeroAtEnd), with y = (item − startY) / distanceY |
| LineCharts.DirectionsMirror | src/LineChart.cpp:146-157 | the two directions hold the same y values mirrored, x measured from the opposite edge |
| LineCharts.SeriesRunsLeftToRight | src/LineChart.cpp:144-157 | in both directions the stored x values do not decrease along the series |
| LineCharts.XOfGrows | src/LineChart.cpp:147 | a later item is drawn further from the origin edge |
| LineCharts.StepIsNonNegative | src/LineChart.cpp:144 | with a non-negative width and at least one point, the step is non-negative |
| LineCharts.StackOnto | src/LineChart.cpp:159-167 | stacking keeps the length of the series |
| LineCharts.StackingRule | src/LineChart.cpp:159-167 | stacking keeps every x; with stacking on and equal lengths every y gains the previous y at that index; otherwise the series is unchanged |
| LineCharts.Interpolate | src/LineChart.cpp:177-181 | fewer than four points are handed on unchanged; four or more become an opaque spline built from them |
| LineCharts.Painted | src/LineChart.cpp:105-114 | one series per source drawn |
| LineCharts.PaintedLengths | src/LineChart.cpp:145 | every series drawn in a paint has `distanceX` points |
| LineCharts.PaintedPrefix | src/LineChart.cpp:105-114 | drawing fewer sources draws a prefix of the same series |
| LineCharts.FirstSeriesNeverStacked | src/LineChart.cpp:101-103 | after the per-paint clear, the first source is drawn exactly as generated |
| LineCharts.TopIsColumnSum | src/LineChart.cpp:159-168 | in a stacked paint, the remembered series lies at the column sums of the series generated so far |
| LineCharts.StackedIsCumulative | src/LineChart.cpp:101-168 | in a stacked paint, series `i` keeps its own x values and its y is the column sum over sources `0..i` |
| LineCharts.DrawnStep | src/LineChart.cpp:106-113 | drawing the next source into its child keeps the children drawn before |
| LineCharts.GenerateSeries | src/LineChart.cpp:144-157 | the fresh buffer holds exactly the series of the source |
| LineCharts.StackInPlace | src/LineChart.cpp:164-165 | the buffer becomes the series stacked onto the previous one |
| LineCharts.PaintNode.AppendChild | src/LineChart.cpp:109 | appends one empty line node |
| LineCharts.PaintNode.GrowTo | src/LineChart.cpp:108-110 | appends empty children up to `count`, keeping the existing ones |
| LineCharts.PaintNode.ShrinkTo | src/LineChart.cpp:116-118 | removes trailing children down to `count`, keeping the rest |
| LineCharts.PaintNode.RemoveLastChild | src/LineChart.cpp:117 | removes the last child and keeps the others |
| LineCharts.PaintNode.SetChild | src/LineChart.cpp:111-113 | hands a curve to the child at an index and leaves every other child alone |
| LineCharts.LineChart.OnDataChanged | src/LineChart.cpp:123-127 | marks the range invalid |
| LineCharts.LineChart.UpdateLineNode | src/LineChart.cpp:129-175 | remembers the generated series stacked onto the remembered one, before smoothing, and hands the child that series or its spline |
| LineCharts.LineChart.UpdatePaintNode | src/LineChart.cpp:88-121 | the node is kept, or made when absent. The range is recomputed exactly when it was invalid, and the flag is cleared. The node ends with one child per source, child `n - 1 - i` showing `Painted` series `i`. The remembered series is the last one drawn, and a stacked paint starts from none |
| LineCharts.LineChart.DrawSources | src/LineChart.cpp:105-118 | after drawing every source and removing surplus children there are exactly as many children as sources, in reverse source order |
| LineCharts.LineChart.DrawSource | src/LineChart.cpp:107-113 | grows the node with empty children to reach the child, leaves every other child alone, and draws the source into the child |
| LineCharts.LineChart.DrawEach | src/LineChart.cpp:105-114 | every source is drawn into its child in reverse order, each stacked onto the one before |
| LineCharts.LineChart.DrawNext | src/LineChart.cpp:107-113 | one iteration of the drawing loop extends the drawn prefix by one source |

## Left out

- Floating point: `qreal` and `float` are modelled as exact reals, with no rounding, infinities or NaN.
- LineCharts.Quotient: a division by zero yields 0. This covers the step size when `distanceX` is 1 and the normalisation when `distanceY` is 0. The source's floats would give an infinity or NaN there.
- Ranges.FuzzyCompare: qFuzzyCompare is taken as exact equality.
- DataSources.ToReal: converting text to a number is not modelled; text yields 0.
- Legend rows keep the name and colour variants they read. The conversions to a string and to a QColor are not modelled.
- Signals, `connect`/`disconnect` and the connection list are not modelled. `beginResetModel`/`endResetModel` are not modelled either.
- The queued `invokeMethod` call is modelled only through the "update queued" flag and the `scheduled` result.
- `LegendModel::data` and `roleNames` are left out. They are role dispatch with no state of their own.
- XYChart::updateComputedRange is not part of this model. The freshly computed range is a parameter of `UpdatePaintNode`.
- The headers that hold the field defaults are not part of this model. Constructors take the initial values.
- LineCharts.Interpolate: only the guard for fewer than four points is modelled. The spline itself depends on QPainterPath and QMatrix4x4; four or more points become an opaque `Spline` built from them, whose flattened points are not modelled.
- Colour premultiplication in `updateLineNode`, and the line colour, line width and rectangle handed to a node, are left out.
- `setSmooth`, `setLineWidth` and `setFillOpacity` are left out. They are plain guarded setters that schedule a repaint.
- The warning logged when stacked lengths differ is left out. Only the resulting "no stacking" is modelled.
- Child line nodes are modelled by the curve they were last handed, not as separate objects. Node identity and deletion are not modelled.
- The x of a ZeroAtEnd point is measured from the width. This is the right edge of the item's bounding rectangle, which starts at 0.
- Legend.LegendModel.Update: with a negative source index it requires at least as many value sources as rows. Otherwise row `i` reads value source `i` out of range. This happens in IndexSourceValues mode when the first source has more items than there are sources, and in IndexAllValues mode when the total item count exceeds the number of sources. The model does not cover that configuration.
- Legend.LegendModel.UpdateData: the same requirement and the same excluded configuration as `Update`, for the in-place refresh.
- LineCharts.LineChart.UpdatePaintNode: requires a non-negative `distanceX` for the range it draws with. A point buffer of negative size is not modelled.
- LineCharts.LineChart.UpdateLineNode: requires a non-negative `distanceX`, for the same reason.
- LineCharts.GenerateSeries: requires a non-negative `distanceX`, for the same reason.
- DataSources.SingleValueSource.SetValue: equality of variants is structural. QVariant's comparison converts between types, so a number and text of the same value compare equal there; the model stores the text and reports a change.
- Legend.CountItems: the `int` sum in `std::accumulate` is unbounded here; 32-bit overflow is not modelled.
- The pie chart scene-graph node, the QML plugin registration, and the classes whose headers only declare members are not part of this model.
