/** The list model behind a chart legend (LegendModel): how many rows the
    legend has, how the rows are rebuilt or refreshed, and how update requests
    are coalesced. */
module Legend {
  import opened DataSources

  /** How a chart maps its data to legend rows. */
  datatype IndexingMode = IndexSourceValues | IndexEachSource | IndexAllValues

  /** The part of a Chart that the legend reads: its indexing mode, its value
      sources and its optional colour and name sources. The rest of Chart is not
      part of this model. */
  class Chart {
    var indexingMode: IndexingMode
    var valueSources: seq<Source>
    var colorSource: Option<Source>
    var nameSource: Option<Source>

    constructor (mode: IndexingMode, values: seq<Source>, colors: Option<Source>, names: Option<Source>)
      ensures indexingMode == mode && valueSources == values
      ensures colorSource == colors && nameSource == names
    {
      indexingMode := mode;
      valueSources := values;
      colorSource := colors;
      nameSource := names;
    }
  }

  /** One legend row. The conversions of the name to a string and of the colour
      to a QColor are not modelled: a row keeps the variants it read, and an
      empty string, colour or value is `Null`. */
  datatype LegendItem = LegendItem(name: Variant, color: Variant, value: Variant)

  /** The sum of the item counts of all sources. */
  function TotalItems(sources: seq<Source>): int
  {
    if |sources| == 0 then 0 else sources[0].itemCount + TotalItems(sources[1..])
  }

  /** std::accumulate over the item counts, a left fold from `current`. */
  function Accumulate(current: int, sources: seq<Source>): int
    decreases |sources|
  {
    if |sources| == 0 then current else Accumulate(current + sources[0].itemCount, sources[1..])
  }

  lemma {:induction false} AccumulateIsTotal(current: int, sources: seq<Source>)
    ensures Accumulate(current, sources) == current + TotalItems(sources)
    decreases |sources|
  {
    if |sources| > 0 {
      AccumulateIsTotal(current + sources[0].itemCount, sources[1..]);
    }
  }

  /** The number of legend rows the chart calls for. */
  function CountItems(mode: IndexingMode, sources: seq<Source>): (count: int)
    ensures mode == IndexSourceValues ==> count == (if |sources| > 0 then sources[0].itemCount else 0)
    ensures mode == IndexEachSource ==> count == |sources|
    ensures mode == IndexAllValues ==> count == TotalItems(sources)
  {
    match mode
    case IndexSourceValues => if |sources| > 0 then sources[0].itemCount else 0
    case IndexEachSource => |sources|
    case IndexAllValues => AccumulateIsTotal(0, sources); Accumulate(0, sources)
  }

  /** Counting all values of sources that each hold one value gives one row per
      source, as IndexEachSource does. */
  lemma {:induction false} OneRowPerSingleValueSource(sources: seq<Source>)
    requires forall k :: 0 <= k < |sources| ==> sources[k].itemCount == 1
    ensures CountItems(IndexAllValues, sources) == CountItems(IndexEachSource, sources)
  {
    OneItemEach(sources);
  }

  lemma {:induction false} OneItemEach(sources: seq<Source>)
    requires forall k :: 0 <= k < |sources| ==> sources[k].itemCount == 1
    ensures TotalItems(sources) == |sources|
  {
    if |sources| > 0 {
      assert forall k :: 0 <= k < |sources[1..]| ==> sources[1..][k] == sources[k + 1];
      OneItemEach(sources[1..]);
    }
  }

  /** Single-value sources, seen as chart data sources, hold one item each:
      counting all values gives one row per source, counting the first
      source's values gives at most one row, and every index of a source
      answers with its stored value. */
  lemma {:induction false} SingleValueSourcesCount(svs: seq<SingleValueSource>, sources: seq<Source>)
    requires |sources| == |svs|
    requires forall k :: 0 <= k < |svs| ==> sources[k] == svs[k].AsSource()
    ensures CountItems(IndexAllValues, sources) == |svs|
    ensures CountItems(IndexSourceValues, sources) == if |svs| > 0 then 1 else 0
    ensures forall k, i :: 0 <= k < |svs| ==> sources[k].item(i) == svs[k].Value()
  {
    OneItemEach(sources);
  }

  /** Item `i` of an optional source; empty when there is no source. */
  function ItemOf(source: Option<Source>, i: int): Variant
  {
    if source.Some? then source.value.item(i) else Null
  }

  /** Whether a rebuild produces rows at all: there must be a colour or a name
      source, and a positive item count. */
  predicate Populated(chart: Chart)
    reads chart
  {
    (chart.colorSource.Some? || chart.nameSource.Some?)
    && CountItems(chart.indexingMode, chart.valueSources) > 0
  }

  /** Row i takes its name and colour from item i of the name and colour
      sources. With a negative source index its value is item 0 of value source
      i; otherwise the value is always empty, because no value source is ever
      selected. */
  ghost predicate Describes(items: seq<LegendItem>, chart: Chart, sourceIndex: int)
    reads chart
  {
    forall i :: 0 <= i < |items| ==>
      && items[i].name == ItemOf(chart.nameSource, i)
      && items[i].color == ItemOf(chart.colorSource, i)
      && (sourceIndex >= 0 ==> items[i].value == Null)
      && (sourceIndex < 0 ==> i < |chart.valueSources| && items[i].value == chart.valueSources[i].item(0))
  }

  /** The row the legend shows at index i. */
  function Entry(chart: Chart, sourceIndex: int, i: int): LegendItem
    reads chart
    requires sourceIndex < 0 ==> 0 <= i < |chart.valueSources|
  {
    // No value source is ever selected for a non-negative index, so the value
    // is then always the empty variant.
    var value := if sourceIndex < 0 then chart.valueSources[i].item(0) else Null;
    LegendItem(ItemOf(chart.nameSource, i), ItemOf(chart.colorSource, i), value)
  }

  class LegendModel {
    var chart: Chart?
    var sourceIndex: int
    var updateQueued: bool
    var items: seq<LegendItem>

    /** The header with the field defaults is not part of this model: the
        source index is given by the caller. */
    constructor (sourceIndex: int)
      ensures chart == null && this.sourceIndex == sourceIndex
      ensures !updateQueued && items == []
    {
      chart := null;
      this.sourceIndex := sourceIndex;
      updateQueued := false;
      items := [];
    }

    /** A list model has rows only under the invalid (root) parent. */
    function RowCount(parentValid: bool): (n: int)
      reads this
      ensures parentValid ==> n == 0
      ensures !parentValid ==> n == |items|
    {
      if parentValid then 0 else |items|
    }

    /** Requests an update; `scheduled` tells whether an update call is posted,
        which happens only when none is pending already. */
    method QueueUpdate() returns (scheduled: bool)
      modifies this`updateQueued
      ensures updateQueued
      ensures scheduled <==> !old(updateQueued)
    {
      scheduled := false;
      if !updateQueued {
        updateQueued := true;
        scheduled := true;
      }
    }

    /** Switches to another chart and queues an update; setting the same chart
        changes nothing. Dropping the old chart's connections is not modelled. */
    method SetChart(newChart: Chart?) returns (scheduled: bool)
      modifies this`chart, this`updateQueued
      ensures chart == newChart
      ensures updateQueued == (old(updateQueued) || newChart != old(chart))
      ensures scheduled <==> newChart != old(chart) && !old(updateQueued)
    {
      if newChart == chart {
        return false;
      }
      chart := newChart;
      scheduled := QueueUpdate();
    }

    /** Stores a new source index and queues an update; the same index changes
        nothing. */
    method SetSourceIndex(index: int) returns (scheduled: bool)
      modifies this`sourceIndex, this`updateQueued
      ensures sourceIndex == index
      ensures updateQueued == (old(updateQueued) || index != old(sourceIndex))
      ensures scheduled <==> index != old(sourceIndex) && !old(updateQueued)
    {
      if index == sourceIndex {
        return false;
      }
      sourceIndex := index;
      scheduled := QueueUpdate();
    }

    /** Rebuilds the rows from the chart. With a negative source index row i
        reads value source i, so the source needs at least as many value
        sources as rows. */
    method Update()
      requires chart != null && sourceIndex < 0 && Populated(chart) ==>
                 CountItems(chart.indexingMode, chart.valueSources) <= |chart.valueSources|
      modifies this`updateQueued, this`items
      ensures !updateQueued
      ensures chart == null ==> items == old(items)
      ensures chart != null && !Populated(chart) ==> items == []
      ensures chart != null && Populated(chart) ==>
                |items| == CountItems(chart.indexingMode, chart.valueSources)
                && Describes(items, chart, sourceIndex)
    {
      updateQueued := false;
      if chart == null {
        return;
      }
      items := [];
      var count := CountItems(chart.indexingMode, chart.valueSources);
      if (chart.colorSource.None? && chart.nameSource.None?) || count <= 0 {
        return;
      }
      var i := 0;
      while i < count
        invariant 0 <= i <= count
        invariant |items| == i && !updateQueued
        invariant Describes(items, chart, sourceIndex)
      {
        items := items + [Entry(chart, sourceIndex, i)];
        i := i + 1;
      }
    }

    /** Refreshes the rows after a source's data changed. A changed row count
        leaves the rows as they are and queues a full update; otherwise every
        row is rewritten in place. */
    method UpdateData()
      requires chart != null
      requires sourceIndex < 0 && CountItems(chart.indexingMode, chart.valueSources) == |items| ==>
                 |items| <= |chart.valueSources|
      modifies this`items, this`updateQueued
      ensures CountItems(chart.indexingMode, chart.valueSources) != |old(items)| ==>
                items == old(items) && updateQueued
      ensures CountItems(chart.indexingMode, chart.valueSources) == |old(items)| ==>
                |items| == |old(items)| && Describes(items, chart, sourceIndex)
                && updateQueued == old(updateQueued)
    {
      var count := CountItems(chart.indexingMode, chart.valueSources);
      if count != |items| {
        var _ := QueueUpdate();
        return;
      }
      var i := 0;
      while i < |items|
        invariant 0 <= i <= |items| == count
        invariant Describes(items[..i], chart, sourceIndex)
        invariant updateQueued == old(updateQueued)
      {
        items := items[i := Entry(chart, sourceIndex, i)];
        i := i + 1;
      }
      assert items[..i] == items;
    }
  }
}
